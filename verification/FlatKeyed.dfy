/** `ReadFlatKeyedFile`: reading "key value" pairs from a stream of characters. */
module FlatKeyed {
  import opened MachineInts
  import opened LimitText

  // Words

  predicate IsSpace(c: char) {
    c in {' ', '\t', '\n', '\U{0b}', '\U{0c}', '\r'}
  }

  /** The white space of the C locale, by character code. */
  lemma SpacesAre(c: char)
    ensures IsSpace(c) <==> c as int == 32 || 9 <= c as int <= 13
  {
  }

  predicate AllSpace(s: string) {
    forall i :: 0 <= i < |s| ==> IsSpace(s[i])
  }

  predicate IsWord(s: string) {
    s != "" && forall i :: 0 <= i < |s| ==> !IsSpace(s[i])
  }

  function SkipSpace(s: string): (r: string)
    ensures |r| <= |s|
    ensures r != "" ==> !IsSpace(r[0])
  {
    if s != "" && IsSpace(s[0]) then SkipSpace(s[1..]) else s
  }

  function WordLength(s: string): (n: nat)
    ensures n <= |s|
    ensures s != "" && !IsSpace(s[0]) ==> n > 0
  {
    if s == "" || IsSpace(s[0]) then 0 else 1 + WordLength(s[1..])
  }

  /** All words of a text. */
  function Words(s: string): seq<string>
    decreases |s|
  {
    var r := SkipSpace(s);
    if r == "" then [] else [r[..WordLength(r)]] + Words(r[WordLength(r)..])
  }

  /** A stream for reading. */
  class Stream {
    var rest: string
    var failed: bool

    constructor (text: string)
      ensures rest == text && !failed
    {
      rest, failed := text, false;
    }

    /** `in >> word`: fails when the stream has failed before or only white space is left. */
    method Extract() returns (word: string)
      modifies this
      ensures old(failed) ==> failed && rest == old(rest)
      ensures !old(failed) ==> failed == (Words(old(rest)) == [])
      ensures !failed ==> Words(old(rest)) == [word] + Words(rest)
    {
      word := "";
      if failed {
        return;
      }
      ghost var whole := rest;
      while rest != "" && IsSpace(rest[0])
        invariant !failed && SkipSpace(rest) == SkipSpace(whole)
        decreases |rest|
      {
        rest := rest[1..];
      }
      var n := 0;
      while n < |rest| && !IsSpace(rest[n])
        invariant !failed && SkipSpace(rest) == SkipSpace(whole) == rest
        invariant n <= |rest| && WordLength(rest) == n + WordLength(rest[n..])
      {
        n := n + 1;
      }
      word, rest := rest[..n], rest[n..];
      failed := n == 0;
    }
  }

  // Pairs

  type Entries = map<string, nat>

  /** What the pairs among the words come to, on top of what was read before. */
  function Gather(words: seq<string>, sofar: Entries): Result<Entries> {
    if |words| < 2 then Ok(sofar)
    else
      match DecodeValue(words[1])
      case Err(e) => Err(e)
      case Ok(v) => Gather(words[2..], sofar[words[0] := v])
  }

  /** What a text comes to. */
  function Parse(text: string): Result<Entries> {
    Gather(Words(text), map[])
  }

  /** The exceptions of `std::stoull` leave the loop. */
  method ReadFlatKeyedFile(s: Stream) returns (r: Result<Entries>)
    modifies s
    ensures r == if old(s.failed) then Ok(map[]) else Parse(old(s.rest))
  {
    var result: Entries := map[];
    ghost var words := if s.failed then [] else Words(s.rest);
    while true
      invariant Gather(words, result) == if old(s.failed) then Ok(map[]) else Gather(Words(old(s.rest)), map[])
      invariant words == if s.failed then [] else Words(s.rest)
      decreases |words|
    {
      var key := s.Extract();
      if s.failed {
        break;
      }
      var v := s.Extract();
      if s.failed {
        break;
      }
      assert words[0] == key && words[1] == v && words[2..] == Words(s.rest);
      var value: nat := NO_LIMIT;
      if v != "max" {
        match Stoull(v) {
          case Err(e) => return Err(e);
          case Ok(n) => value := n;
        }
      }
      result := result[key := value];
      words := words[2..];
    }
    r := Ok(result);
  }

  // Layout

  datatype Field = Field(word: string, space: string)

  function Laid(fields: seq<Field>): string {
    if fields == [] then "" else fields[0].word + fields[0].space + Laid(fields[1..])
  }

  function WordsOf(fields: seq<Field>): seq<string> {
    if fields == [] then [] else [fields[0].word] + WordsOf(fields[1..])
  }

  /** Words apart from each other by some white space; after the last there need be none. */
  predicate Apart(fields: seq<Field>) {
    forall i :: 0 <= i < |fields| ==>
      IsWord(fields[i].word) && AllSpace(fields[i].space) && (i < |fields| - 1 ==> fields[i].space != "")
  }

  lemma {:induction false} SkipsAll(space: string, s: string)
    requires AllSpace(space) && (s == "" || !IsSpace(s[0]))
    ensures SkipSpace(space + s) == s
  {
    if space != "" {
      assert (space + s)[1..] == space[1..] + s;
      SkipsAll(space[1..], s);
    } else {
      assert space + s == s;
    }
  }

  lemma {:induction false} WordEnds(word: string, s: string)
    requires (forall i :: 0 <= i < |word| ==> !IsSpace(word[i])) && (s == "" || IsSpace(s[0]))
    ensures WordLength(word + s) == |word|
  {
    if word != "" {
      assert (word + s)[1..] == word[1..] + s;
      WordEnds(word[1..], s);
    } else {
      assert word + s == s;
    }
  }

  /** Words are found whatever the white space between, before and after them. */
  lemma {:induction false} LaidWordsAreFound(lead: string, fields: seq<Field>)
    requires AllSpace(lead) && Apart(fields)
    ensures Words(lead + Laid(fields)) == WordsOf(fields)
    decreases |fields|
  {
    SkipsAll(lead, Laid(fields));
    if fields != [] {
      var f, more := fields[0], Laid(fields[1..]);
      assert Laid(fields) == f.word + (f.space + more);
      WordEnds(f.word, f.space + more);
      LaidWordsAreFound(f.space, fields[1..]);
    }
  }

  function LeadingSpace(s: string): string {
    s[..|s| - |SkipSpace(s)|]
  }

  lemma {:induction false} SpaceThenRest(s: string)
    ensures AllSpace(LeadingSpace(s)) && s == LeadingSpace(s) + SkipSpace(s)
  {
    if s != "" && IsSpace(s[0]) {
      SpaceThenRest(s[1..]);
      assert LeadingSpace(s) == [s[0]] + LeadingSpace(s[1..]);
    }
  }

  predicate LaidAs(s: string, lead: string, fields: seq<Field>) {
    AllSpace(lead) && Apart(fields) && s == lead + Laid(fields)
  }

  lemma MoreLaid(word: string, s: string, lead: string, fields: seq<Field>)
    requires IsWord(word) && LaidAs(s, lead, fields) && (s == "" || IsSpace(s[0]))
    ensures LaidAs(word + s, "", [Field(word, lead)] + fields)
  {
    var all := [Field(word, lead)] + fields;
    assert all[1..] == fields;
    assert word + s == "" + Laid(all);
    assert fields != [] ==> |Laid(fields)| > 0 && Laid(fields)[0] == fields[0].word[0];
    assert fields != [] ==> !IsSpace(Laid(fields)[0]);
    assert fields != [] ==> lead != "";
  }

  lemma MoreLead(space: string, s: string, fields: seq<Field>)
    requires AllSpace(space) && LaidAs(s, "", fields)
    ensures LaidAs(space + s, space, fields)
  {
    assert "" + Laid(fields) == Laid(fields);
  }

  lemma {:induction false} EveryWordBeginsALayout(s: string)
    requires s != "" && !IsSpace(s[0])
    ensures exists fields :: LaidAs(s, "", fields)
    decreases |s|, 0
  {
    var k := WordLength(s);
    WordIsWord(s);
    EveryTextIsLaidOut(s[k..]);
    var lead: string, fields: seq<Field> :| LaidAs(s[k..], lead, fields);
    MoreLaid(s[..k], s[k..], lead, fields);
    assert s == s[..k] + s[k..];
  }

  /** There are no other texts. */
  lemma {:induction false} EveryTextIsLaidOut(s: string)
    ensures exists lead, fields :: LaidAs(s, lead, fields)
    decreases |s|, 1
  {
    var space, r := LeadingSpace(s), SkipSpace(s);
    SpaceThenRest(s);
    if r == "" {
      assert LaidAs(s, s, []);
    } else {
      EveryWordBeginsALayout(r);
      var fields :| LaidAs(r, "", fields);
      MoreLead(space, r, fields);
    }
  }

  lemma {:induction false} WordIsWord(s: string)
    requires s != "" && !IsSpace(s[0])
    ensures IsWord(s[..WordLength(s)])
    ensures var r := s[WordLength(s)..]; r != "" ==> IsSpace(r[0])
  {
    WordLengthExact(s);
  }

  lemma {:induction false} WordLengthExact(s: string)
    ensures forall i :: 0 <= i < WordLength(s) ==> !IsSpace(s[i])
    ensures WordLength(s) < |s| ==> IsSpace(s[WordLength(s)])
  {
    if s != "" && !IsSpace(s[0]) {
      WordLengthExact(s[1..]);
      forall i | 0 <= i < WordLength(s)
        ensures !IsSpace(s[i])
      {
        assert i > 0 ==> s[i] == s[1..][i - 1];
      }
    }
  }

  // What is read

  predicate IsPair(words: seq<string>, i: int) {
    0 <= i && 2 * i + 1 < |words|
  }

  function KeyAt(words: seq<string>, i: nat): string
    requires IsPair(words, i)
  {
    words[2 * i]
  }

  function TextAt(words: seq<string>, i: nat): string
    requires IsPair(words, i)
  {
    words[2 * i + 1]
  }

  lemma PairsShift(words: seq<string>)
    requires |words| >= 2
    ensures IsPair(words, 0) && KeyAt(words, 0) == words[0] && TextAt(words, 0) == words[1]
    ensures forall i :: i >= 1 ==>
              (IsPair(words, i) <==> IsPair(words[2..], i - 1))
              && (IsPair(words, i) ==> KeyAt(words, i) == KeyAt(words[2..], i - 1) && TextAt(words, i) == TextAt(words[2..], i - 1))
    ensures forall i :: IsPair(words[2..], i) ==>
              IsPair(words, i + 1) && KeyAt(words, i + 1) == KeyAt(words[2..], i) && TextAt(words, i + 1) == TextAt(words[2..], i)
  {
  }

  ghost predicate AllDecode(words: seq<string>) {
    forall i :: IsPair(words, i) ==> DecodeValue(TextAt(words, i)).Ok?
  }

  lemma AllDecodeSplits(words: seq<string>)
    requires |words| >= 2
    ensures AllDecode(words) <==> DecodeValue(words[1]).Ok? && AllDecode(words[2..])
  {
    PairsShift(words);
    hide DecodeValue, TextAt;
    if AllDecode(words) {
      forall i | IsPair(words[2..], i)
        ensures DecodeValue(TextAt(words[2..], i)).Ok?
      {
        assert DecodeValue(TextAt(words, i + 1)).Ok?;
      }
    }
    if DecodeValue(words[1]).Ok? && AllDecode(words[2..]) {
      forall i | IsPair(words, i)
        ensures DecodeValue(TextAt(words, i)).Ok?
      {
        assert i >= 1 ==> IsPair(words[2..], i - 1);
      }
    }
  }

  /** Reading succeeds exactly when all values of pairs are numbers in range or "max". */
  lemma {:induction false} SucceedsExactlyWhenAllDecode(words: seq<string>, sofar: Entries)
    ensures Gather(words, sofar).Ok? <==> AllDecode(words)
    decreases |words|
  {
    if |words| >= 2 {
      AllDecodeSplits(words);
      hide DecodeValue, AllDecode;
      if DecodeValue(words[1]).Ok? {
        SucceedsExactlyWhenAllDecode(words[2..], sofar[words[0] := DecodeValue(words[1]).value]);
      }
    }
  }

  /** Otherwise the first pair whose value does not decode decides the exception. */
  lemma {:induction false} FirstBadValueDecides(words: seq<string>, sofar: Entries, i: nat)
    requires IsPair(words, i) && DecodeValue(TextAt(words, i)).Err?
    requires forall j :: 0 <= j < i && IsPair(words, j) ==> DecodeValue(TextAt(words, j)).Ok?
    ensures Gather(words, sofar) == Err(DecodeValue(TextAt(words, i)).error)
    decreases |words|
  {
    PairsShift(words);
    hide DecodeValue;
    if i > 0 {
      FirstBadValueDecides(words[2..], sofar[words[0] := DecodeValue(words[1]).value], i - 1);
    }
  }

  /** The last pair of a key decides its value. */
  lemma {:induction false} LastPairDecides(words: seq<string>, sofar: Entries, i: nat)
    requires Gather(words, sofar).Ok? && IsPair(words, i)
    requires forall j :: i < j && IsPair(words, j) ==> KeyAt(words, j) != KeyAt(words, i)
    ensures var m, key := Gather(words, sofar).value, KeyAt(words, i);
      key in m && Ok(m[key]) == DecodeValue(TextAt(words, i))
    decreases |words|
  {
    PairsShift(words);
    hide DecodeValue;
    var sofar' := sofar[words[0] := DecodeValue(words[1]).value];
    if i == 0 {
      OtherKeysKeepTheirs(words[2..], sofar', words[0]);
    } else {
      LastPairDecides(words[2..], sofar', i - 1);
    }
  }

  /** A key that heads no pair keeps what it had. */
  lemma {:induction false} OtherKeysKeepTheirs(words: seq<string>, sofar: Entries, key: string)
    requires Gather(words, sofar).Ok? && forall j :: IsPair(words, j) ==> KeyAt(words, j) != key
    ensures var m := Gather(words, sofar).value;
      (key in m <==> key in sofar) && (key in m ==> m[key] == sofar[key])
    decreases |words|
  {
    hide DecodeValue;
    if |words| >= 2 {
      PairsShift(words);
      OtherKeysKeepTheirs(words[2..], sofar[words[0] := DecodeValue(words[1]).value], key);
    }
  }

  /** A key with no value after it does not matter. */
  lemma {:induction false} LoneKeyIsDropped(words: seq<string>, key: string, sofar: Entries)
    requires |words| % 2 == 0
    ensures Gather(words + [key], sofar) == Gather(words, sofar)
    decreases |words|
  {
    if |words| >= 2 && DecodeValue(words[1]).Ok? {
      assert (words + [key])[2..] == words[2..] + [key];
      LoneKeyIsDropped(words[2..], key, sofar[words[0] := DecodeValue(words[1]).value]);
    }
  }

  // Round trip

  datatype Entry = Entry(key: string, value: nat)

  predicate Printable(es: seq<Entry>) {
    forall i :: 0 <= i < |es| ==> IsWord(es[i].key) && es[i].value < TWO64
  }

  /** One line for each entry. */
  function Print(es: seq<Entry>): string {
    if es == [] then "" else es[0].key + " " + PrintLimit(es[0].value) + "\n" + Print(es[1..])
  }

  function Collected(es: seq<Entry>, sofar: Entries): Entries {
    if es == [] then sofar else Collected(es[1..], sofar[es[0].key := es[0].value])
  }

  function FieldsOf(es: seq<Entry>): seq<Field> {
    if es == [] then [] else [Field(es[0].key, " "), Field(PrintLimit(es[0].value), "\n")] + FieldsOf(es[1..])
  }

  lemma LimitIsWord(v: nat)
    ensures IsWord(PrintLimit(v))
  {
    if v != NO_LIMIT {
      var s := Decimal(v);
      assert forall i :: 0 <= i < |s| ==> IsDigit(s[i]);
    }
  }

  /** The fields of the first line, and the others. */
  lemma FirstLine(es: seq<Entry>)
    requires es != []
    ensures var fields, text := FieldsOf(es), PrintLimit(es[0].value);
      && |fields| >= 2 && fields[0] == Field(es[0].key, " ") && fields[1] == Field(text, "\n")
      && fields[1..][1..] == fields[2..] == FieldsOf(es[1..])
  {
    hide PrintLimit;
  }

  lemma FirstLineWords(es: seq<Entry>)
    requires es != []
    ensures WordsOf(FieldsOf(es)) == [es[0].key, PrintLimit(es[0].value)] + WordsOf(FieldsOf(es[1..]))
  {
    hide PrintLimit, FieldsOf;
    FirstLine(es);
    assert WordsOf(FieldsOf(es)[1..]) == [PrintLimit(es[0].value)] + WordsOf(FieldsOf(es[1..]));
  }

  lemma Concatenated(a: string, b: string, c: string, d: string, e: string)
    ensures a + b + (c + d + e) == a + b + c + d + e
  {
  }

  lemma FirstLineLaid(es: seq<Entry>)
    requires es != []
    ensures Laid(FieldsOf(es)) == es[0].key + " " + PrintLimit(es[0].value) + "\n" + Laid(FieldsOf(es[1..]))
  {
    hide PrintLimit, FieldsOf;
    FirstLine(es);
    assert Laid(FieldsOf(es)[1..]) == PrintLimit(es[0].value) + "\n" + Laid(FieldsOf(es[1..]));
    Concatenated(es[0].key, " ", PrintLimit(es[0].value), "\n", Laid(FieldsOf(es[1..])));
  }

  lemma {:induction false} FieldsAreApart(es: seq<Entry>)
    requires Printable(es)
    ensures forall i :: 0 <= i < |FieldsOf(es)| ==>
              var f := FieldsOf(es)[i]; IsWord(f.word) && AllSpace(f.space) && f.space != ""
    ensures Apart(FieldsOf(es))
  {
    hide PrintLimit, IsWord;
    if es != [] {
      FirstLine(es);
      LimitIsWord(es[0].value);
      FieldsAreApart(es[1..]);
      var fields := FieldsOf(es);
      forall i | 0 <= i < |fields|
        ensures IsWord(fields[i].word) && AllSpace(fields[i].space) && fields[i].space != ""
      {
        assert i >= 2 ==> fields[i] == fields[2..][i - 2];
      }
    }
  }

  lemma NoWords()
    ensures WordsOf(FieldsOf([])) == []
  {
  }

  lemma {:induction false} FieldsAreLaid(es: seq<Entry>)
    ensures Laid(FieldsOf(es)) == Print(es)
  {
    hide PrintLimit;
    if es != [] {
      FirstLineLaid(es);
      FieldsAreLaid(es[1..]);
    }
  }

  lemma {:induction false} PrintedWordsGather(es: seq<Entry>, sofar: Entries)
    requires Printable(es)
    ensures |WordsOf(FieldsOf(es))| % 2 == 0
    ensures Gather(WordsOf(FieldsOf(es)), sofar) == Ok(Collected(es, sofar))
  {
    hide PrintLimit, IsWord, DecodeValue, FieldsOf, WordsOf;
    if es != [] {
      FirstLineWords(es);
      LimitSurvives(es[0].value);
      var words := WordsOf(FieldsOf(es));
      assert words[2..] == WordsOf(FieldsOf(es[1..]));
      PrintedWordsGather(es[1..], sofar[es[0].key := es[0].value]);
    } else {
      NoWords();
    }
  }

  /** Any lines come back, a later one for the same key taking the place of an earlier one. */
  lemma PrintedLinesAreReadBack(es: seq<Entry>)
    requires Printable(es)
    ensures Parse(Print(es)) == Ok(Collected(es, map[]))
  {
    FieldsAreApart(es);
    FieldsAreLaid(es);
    LaidWordsAreFound("", FieldsOf(es));
    assert "" + Laid(FieldsOf(es)) == Print(es);
    PrintedWordsGather(es, map[]);
  }

  /** A line that breaks off after its key adds nothing. */
  lemma BrokenLineAddsNothing(es: seq<Entry>, key: string, space: string)
    requires Printable(es) && IsWord(key) && AllSpace(space)
    ensures Parse(Print(es) + key + space) == Parse(Print(es))
  {
    FieldsAreApart(es);
    FieldsAreLaid(es);
    var fields := FieldsOf(es);
    var all := fields + [Field(key, space)];
    LaidAppends(fields, Field(key, space));
    LaidWordsAreFound("", all);
    LaidWordsAreFound("", fields);
    assert "" + Laid(all) == Print(es) + key + space && "" + Laid(fields) == Print(es);
    PrintedWordsGather(es, map[]);
    LoneKeyIsDropped(WordsOf(fields), key, map[]);
  }

  lemma {:induction false} LaidAppends(fields: seq<Field>, f: Field)
    ensures Laid(fields + [f]) == Laid(fields) + f.word + f.space
    ensures WordsOf(fields + [f]) == WordsOf(fields) + [f.word]
  {
    if fields != [] {
      LaidAppends(fields[1..], f);
      assert (fields + [f])[1..] == fields[1..] + [f];
    }
  }

  /** `es` lists the entries of `m`, each once, in whatever order. */
  predicate Lists(es: seq<Entry>, m: Entries) {
    && (forall i :: 0 <= i < |es| ==> es[i].key in m && m[es[i].key] == es[i].value)
    && (forall k :: k in m ==> Entry(k, m[k]) in es)
  }

  lemma {:induction false} CollectedIs(es: seq<Entry>, m: Entries, sofar: Entries)
    requires forall i :: 0 <= i < |es| ==> es[i].key in m && m[es[i].key] == es[i].value
    requires forall k :: k in sofar ==> k in m && m[k] == sofar[k]
    requires forall k :: k in m ==> k in sofar || Entry(k, m[k]) in es
    ensures Collected(es, sofar) == m
  {
    if es == [] {
      assert sofar == m;
    } else {
      forall k | k in m && k !in sofar && k != es[0].key
        ensures Entry(k, m[k]) in es[1..]
      {
      }
      CollectedIs(es[1..], m, sofar[es[0].key := es[0].value]);
    }
  }

  /** Every map of 64-bit values under words comes back, in whatever order it was written. */
  lemma MapsSurvive(es: seq<Entry>, m: Entries)
    requires Lists(es, m) && forall k :: k in m ==> IsWord(k) && m[k] < TWO64
    ensures Parse(Print(es)) == Ok(m)
  {
    PrintedLinesAreReadBack(es);
    CollectedIs(es, m, map[]);
  }
}
