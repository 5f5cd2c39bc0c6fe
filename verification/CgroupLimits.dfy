/** `CgroupController`: its limits, as they reach the control files. */
module CgroupLimits {
  import opened MachineInts
  import opened LimitText
  import opened FlatKeyed

  const MEMORY_MAX := "memory.max"
  const MEMORY_HIGH := "memory.high"
  const PIDS_MAX := "pids.max"
  const CPU_MAX := "cpu.max"

  type Files = map<string, string>

  /** The builder's fields, all 64-bit and unsigned. */
  datatype Limits = Limits(high: nat, max: nat, pids: nat, cpuLimit: nat, cpuWindow: nat)

  predicate InRange(o: Limits) {
    o.high < TWO64 && o.max < TWO64 && o.pids < TWO64 && o.cpuLimit < TWO64 && o.cpuWindow < TWO64
  }

  /** `std::chrono::microseconds` counts in signed 64-bit numbers. */
  function SignedDecimal(x: int): string {
    if x < 0 then "-" + Decimal(-x) else Decimal(x)
  }

  /** `Builder::setCpuWindowLimit` */
  function WithCpuWindow(o: Limits, limit: int, window: int): Limits {
    o.(cpuLimit := AsUnsigned(limit), cpuWindow := AsUnsigned(window))
  }

  function CpuText(limit: int, window: int): string {
    SignedDecimal(limit) + " " + SignedDecimal(window)
  }

  /** Which control files cannot be opened, and which texts the kernel does not take for which file. */
  datatype Kernel = Kernel(sealed: set<string>, refused: set<(string, string)>)

  predicate Takes(k: Kernel, name: string, text: string) {
    name !in k.sealed && (name, text) !in k.refused
  }

  /**
   One setter: whether it returned, and what the control files have taken. It panics only when
   the file cannot be opened: it looks at the stream before the buffered text goes to the kernel,
   so a refused value goes unnoticed.
   */
  function Written(files: Files, k: Kernel, name: string, text: string): (bool, Files) {
    if name in k.sealed then (false, files)
    else if (name, text) in k.refused then (true, files)
    else (true, files[name := text])
  }

  type Texts = seq<(string, string)>

  function When(c: bool, name: string, text: string, rest: Texts): Texts {
    if c then [(name, text)] + rest else rest
  }

  function CpuTexts(o: Limits): Texts {
    When(o.cpuLimit != NO_LIMIT, CPU_MAX, CpuText(AsSigned(o.cpuLimit), AsSigned(o.cpuWindow)), [])
  }

  function PidsTexts(o: Limits): Texts {
    When(o.pids != NO_LIMIT, PIDS_MAX, PrintLimit(o.pids), CpuTexts(o))
  }

  function HighTexts(o: Limits): Texts {
    When(o.high != NO_LIMIT, MEMORY_HIGH, PrintLimit(o.high), PidsTexts(o))
  }

  /** Which files the constructor writes, in this order, and what to. */
  function Wanted(o: Limits): Texts {
    When(o.max != NO_LIMIT, MEMORY_MAX, PrintLimit(o.max), HighTexts(o))
  }

  function WriteAll(files: Files, k: Kernel, texts: Texts): (bool, Files)
    decreases |texts|
  {
    if texts == [] then (true, files)
    else
      var (ok, files') := Written(files, k, texts[0].0, texts[0].1);
      if ok then WriteAll(files', k, texts[1..]) else (false, files')
  }

  lemma WriteFirst(files: Files, k: Kernel, name: string, text: string, rest: Texts)
    ensures var (ok, files') := Written(files, k, name, text);
      WriteAll(files, k, [(name, text)] + rest) == if ok then WriteAll(files', k, rest) else (false, files')
  {
    assert ([(name, text)] + rest)[1..] == rest;
  }

  class Controller {
    var files: Files
    const kernel: Kernel

    constructor (files: Files, kernel: Kernel)
      ensures this.files == files && this.kernel == kernel
    {
      this.files, this.kernel := files, kernel;
    }

    method Write(name: string, text: string) returns (ok: bool)
      modifies this
      ensures (ok, files) == Written(old(files), kernel, name, text)
    {
      ok := name !in kernel.sealed;
      if ok && (name, text) !in kernel.refused {
        files := files[name := text];
      }
    }

    method SetMemoryLimitMax(newVal: nat) returns (ok: bool)
      modifies this
      ensures (ok, files) == Written(old(files), kernel, MEMORY_MAX, PrintLimit(newVal))
    {
      if newVal == NO_LIMIT {
        ok := Write(MEMORY_MAX, "max");
      } else {
        ok := Write(MEMORY_MAX, Decimal(newVal));
      }
    }

    method SetMemoryLimitHigh(newVal: nat) returns (ok: bool)
      modifies this
      ensures (ok, files) == Written(old(files), kernel, MEMORY_HIGH, PrintLimit(newVal))
    {
      if newVal == NO_LIMIT {
        ok := Write(MEMORY_HIGH, "max");
      } else {
        ok := Write(MEMORY_HIGH, Decimal(newVal));
      }
    }

    method SetPidsLimit(newVal: nat) returns (ok: bool)
      modifies this
      ensures (ok, files) == Written(old(files), kernel, PIDS_MAX, PrintLimit(newVal))
    {
      if newVal == NO_LIMIT {
        ok := Write(PIDS_MAX, "max");
      } else {
        ok := Write(PIDS_MAX, Decimal(newVal));
      }
    }

    method SetCpuWindowLimit(limit: int, window: int) returns (ok: bool)
      modifies this
      ensures (ok, files) == Written(old(files), kernel, CPU_MAX, CpuText(limit, window))
    {
      ok := Write(CPU_MAX, SignedDecimal(limit) + " " + SignedDecimal(window));
    }

    /** The constructor's part that applies the options. */
    method Configure(o: Limits) returns (ok: bool)
      modifies this
      ensures (ok, files) == WriteAll(old(files), kernel, Wanted(o))
    {
      hide PrintLimit, CpuText, AsSigned, Written, WriteAll;
      ok := true;
      if o.max != NO_LIMIT {
        WriteFirst(files, kernel, MEMORY_MAX, PrintLimit(o.max), HighTexts(o));
        ok := SetMemoryLimitMax(o.max);
        if !ok {
          return;
        }
      }
      if o.high != NO_LIMIT {
        WriteFirst(files, kernel, MEMORY_HIGH, PrintLimit(o.high), PidsTexts(o));
        ok := SetMemoryLimitHigh(o.high);
        if !ok {
          return;
        }
      }
      if o.pids != NO_LIMIT {
        WriteFirst(files, kernel, PIDS_MAX, PrintLimit(o.pids), CpuTexts(o));
        ok := SetPidsLimit(o.pids);
        if !ok {
          return;
        }
      }
      if o.cpuLimit != NO_LIMIT {
        var limit, window := AsSigned(o.cpuLimit), AsSigned(o.cpuWindow);
        WriteFirst(files, kernel, CPU_MAX, CpuText(limit, window), []);
        ok := SetCpuWindowLimit(limit, window);
      }
      WriteNothing(files, kernel);
    }
  }

  lemma WriteNothing(files: Files, k: Kernel)
    ensures WriteAll(files, k, []) == (true, files)
  {
  }

  // What the files say

  lemma WriteWhen(files: Files, k: Kernel, c: bool, name: string, text: string, rest: Texts)
    ensures WriteAll(files, k, When(c, name, text, rest)) ==
              if c && name in k.sealed then (false, files)
              else WriteAll(Put(files, c && Takes(k, name, text), name, text), k, rest)
  {
    if c {
      WriteFirst(files, k, name, text, rest);
    }
  }

  function Put(files: Files, c: bool, name: string, text: string): Files {
    if c then files[name := text] else files
  }

  /** For each option in the constructor's order: its file is asked for. */
  datatype Asked = Asked(max: bool, high: bool, pids: bool, cpu: bool)

  function AskedFor(o: Limits): Asked {
    Asked(o.max != NO_LIMIT, o.high != NO_LIMIT, o.pids != NO_LIMIT, o.cpuLimit != NO_LIMIT)
  }

  /** Which of the files are opened before the first that cannot be. */
  function Opened(a: Asked, k: Kernel): Asked {
    var max := a.max ==> MEMORY_MAX !in k.sealed;
    var high := max && (a.high ==> MEMORY_HIGH !in k.sealed);
    var pids := high && (a.pids ==> PIDS_MAX !in k.sealed);
    var cpu := pids && (a.cpu ==> CPU_MAX !in k.sealed);
    Asked(a.max && max, a.high && high, a.pids && pids, a.cpu && cpu)
  }

  /** Which of the options get into their file: it is opened and the kernel takes the text. */
  function Entered(o: Limits, k: Kernel): Asked {
    var a := Opened(AskedFor(o), k);
    Asked(
      a.max && Takes(k, MEMORY_MAX, PrintLimit(o.max)),
      a.high && Takes(k, MEMORY_HIGH, PrintLimit(o.high)),
      a.pids && Takes(k, PIDS_MAX, PrintLimit(o.pids)),
      a.cpu && Takes(k, CPU_MAX, CpuText(AsSigned(o.cpuLimit), AsSigned(o.cpuWindow))))
  }

  function PutAll(files: Files, o: Limits, a: Asked): Files {
    var files1 := Put(files, a.max, MEMORY_MAX, PrintLimit(o.max));
    var files2 := Put(files1, a.high, MEMORY_HIGH, PrintLimit(o.high));
    var files3 := Put(files2, a.pids, PIDS_MAX, PrintLimit(o.pids));
    Put(files3, a.cpu, CPU_MAX, CpuText(AsSigned(o.cpuLimit), AsSigned(o.cpuWindow)))
  }

  lemma WantedIs(o: Limits)
    ensures var a := AskedFor(o);
      && Wanted(o) == When(a.max, MEMORY_MAX, PrintLimit(o.max), HighTexts(o))
      && HighTexts(o) == When(a.high, MEMORY_HIGH, PrintLimit(o.high), PidsTexts(o))
      && PidsTexts(o) == When(a.pids, PIDS_MAX, PrintLimit(o.pids), CpuTexts(o))
      && CpuTexts(o) == When(a.cpu, CPU_MAX, CpuText(AsSigned(o.cpuLimit), AsSigned(o.cpuWindow)), [])
  {
    hide When, PrintLimit, CpuText, AsSigned;
  }

  /** What has been written after each step, as long as none has failed. */
  function PutMax(files: Files, k: Kernel, o: Limits): Files {
    Put(files, o.max != NO_LIMIT && Takes(k, MEMORY_MAX, PrintLimit(o.max)), MEMORY_MAX, PrintLimit(o.max))
  }

  function PutHigh(files: Files, k: Kernel, o: Limits): Files {
    Put(PutMax(files, k, o), o.high != NO_LIMIT && Takes(k, MEMORY_HIGH, PrintLimit(o.high)), MEMORY_HIGH, PrintLimit(o.high))
  }

  function PutPids(files: Files, k: Kernel, o: Limits): Files {
    Put(PutHigh(files, k, o), o.pids != NO_LIMIT && Takes(k, PIDS_MAX, PrintLimit(o.pids)), PIDS_MAX, PrintLimit(o.pids))
  }

  function PutCpu(files: Files, k: Kernel, o: Limits): Files {
    var text := CpuText(AsSigned(o.cpuLimit), AsSigned(o.cpuWindow));
    Put(PutPids(files, k, o), o.cpuLimit != NO_LIMIT && Takes(k, CPU_MAX, text), CPU_MAX, text)
  }

  /** The first file that cannot be opened ends it. */
  lemma WriteAllIs(files: Files, k: Kernel, o: Limits)
    ensures var a := AskedFor(o);
      WriteAll(files, k, Wanted(o)) ==
        if a.max && MEMORY_MAX in k.sealed then (false, files)
        else if a.high && MEMORY_HIGH in k.sealed then (false, PutMax(files, k, o))
        else if a.pids && PIDS_MAX in k.sealed then (false, PutHigh(files, k, o))
        else if a.cpu && CPU_MAX in k.sealed then (false, PutPids(files, k, o))
        else (true, PutCpu(files, k, o))
  {
    hide WriteAll, Wanted, HighTexts, PidsTexts, CpuTexts, PrintLimit, CpuText, When, AsSigned, Takes, Put, MEMORY_MAX, MEMORY_HIGH, PIDS_MAX, CPU_MAX;
    var a, text := AskedFor(o), CpuText(AsSigned(o.cpuLimit), AsSigned(o.cpuWindow));
    WantedIs(o);
    WriteWhen(files, k, a.max, MEMORY_MAX, PrintLimit(o.max), HighTexts(o));
    WriteWhen(PutMax(files, k, o), k, a.high, MEMORY_HIGH, PrintLimit(o.high), PidsTexts(o));
    WriteWhen(PutHigh(files, k, o), k, a.pids, PIDS_MAX, PrintLimit(o.pids), CpuTexts(o));
    WriteWhen(PutPids(files, k, o), k, a.cpu, CPU_MAX, text, []);
    WriteNothing(PutCpu(files, k, o), k);
  }

  /**
   The constructor succeeds exactly when it can open whatever it has to write, no matter what the
   kernel refuses, and whether it succeeds or not the files then have what entered them.
   */
  lemma ConfiguresExactlyWhenOpened(files: Files, k: Kernel, o: Limits)
    ensures var (ok, files') := WriteAll(files, k, Wanted(o));
      && (ok <==> Opened(AskedFor(o), k) == AskedFor(o))
      && files' == PutAll(files, o, Entered(o, k))
  {
    hide WriteAll, Wanted, PrintLimit, CpuText, AsSigned, Takes, MEMORY_MAX, MEMORY_HIGH, PIDS_MAX, CPU_MAX;
    WriteAllIs(files, k, o);
  }

  predicate SameAt(files: Files, files': Files, name: string) {
    (name in files' <==> name in files) && (name in files ==> files'[name] == files[name])
  }

  /** The file reads as this limit. */
  predicate Reads(files: Files, name: string, limit: nat) {
    name in files && DecodeValue(files[name]) == Ok(limit)
  }

  /** The file reads as these two counts of microseconds, in plain decimal notation. */
  predicate ReadsCpu(files: Files, limit: int, window: int) {
    CPU_MAX in files &&
    var words := Words(files[CPU_MAX]);
    && |words| == 2 && IsSigned(words[0]) && IsSigned(words[1])
    && SignedNumber(words[0]) == limit && SignedNumber(words[1]) == window
  }

  lemma OptionsReachByName(files: Files, k: Kernel, o: Limits)
    requires InRange(o)
    ensures var files', a := WriteAll(files, k, Wanted(o)).1, Entered(o, k);
      && (a.max || Reads(files, MEMORY_MAX, o.max) <==> Reads(files', MEMORY_MAX, o.max))
      && (a.high || Reads(files, MEMORY_HIGH, o.high) <==> Reads(files', MEMORY_HIGH, o.high))
      && (a.pids || Reads(files, PIDS_MAX, o.pids) <==> Reads(files', PIDS_MAX, o.pids))
      && (a.cpu || ReadsCpu(files, AsSigned(o.cpuLimit), AsSigned(o.cpuWindow)) <==>
            ReadsCpu(files', AsSigned(o.cpuLimit), AsSigned(o.cpuWindow)))
      && (!a.max ==> SameAt(files, files', MEMORY_MAX)) && (!a.high ==> SameAt(files, files', MEMORY_HIGH))
      && (!a.pids ==> SameAt(files, files', PIDS_MAX)) && (!a.cpu ==> SameAt(files, files', CPU_MAX))
      && forall name :: name !in {MEMORY_MAX, MEMORY_HIGH, PIDS_MAX, CPU_MAX} ==> SameAt(files, files', name)
  {
    hide WriteAll, Wanted, Entered, PrintLimit, CpuText, AsSigned, DecodeValue, Put,
      Words, IsSigned, SignedNumber, MEMORY_MAX, MEMORY_HIGH, PIDS_MAX, CPU_MAX;
    var a := Entered(o, k);
    ConfiguresExactlyWhenOpened(files, k, o);
    LimitSurvives(o.max);
    LimitSurvives(o.high);
    LimitSurvives(o.pids);
    CpuTextSurvives(AsSigned(o.cpuLimit), AsSigned(o.cpuWindow));
    NamesDiffer();
    FourFiles(files, MEMORY_MAX, MEMORY_HIGH, PIDS_MAX, CPU_MAX, a,
      PrintLimit(o.max), PrintLimit(o.high), PrintLimit(o.pids), CpuText(AsSigned(o.cpuLimit), AsSigned(o.cpuWindow)));
  }

  /**
   Whether the constructor succeeds or panics: an option whose text entered its file is read there
   as it was given, every other file is left alone. So a file comes to read as its option exactly
   if the file was opened and the text taken, unless it did so before.
   */
  lemma OptionsReachTheirFiles(files: Files, k: Kernel, o: Limits)
    requires InRange(o)
    ensures var files', a := WriteAll(files, k, Wanted(o)).1, Entered(o, k);
      && (a.max || Reads(files, "memory.max", o.max) <==> Reads(files', "memory.max", o.max))
      && (a.high || Reads(files, "memory.high", o.high) <==> Reads(files', "memory.high", o.high))
      && (a.pids || Reads(files, "pids.max", o.pids) <==> Reads(files', "pids.max", o.pids))
      && (a.cpu || ReadsCpu(files, AsSigned(o.cpuLimit), AsSigned(o.cpuWindow)) <==>
            ReadsCpu(files', AsSigned(o.cpuLimit), AsSigned(o.cpuWindow)))
      && (!a.max ==> SameAt(files, files', "memory.max")) && (!a.high ==> SameAt(files, files', "memory.high"))
      && (!a.pids ==> SameAt(files, files', "pids.max")) && (!a.cpu ==> SameAt(files, files', "cpu.max"))
      && forall name :: name !in {"memory.max", "memory.high", "pids.max", "cpu.max"} ==> SameAt(files, files', name)
  {
    OptionsReachByName(files, k, o);
    hide WriteAll, Wanted, Entered, Reads, ReadsCpu, SameAt, AsSigned;
  }

  /** Which options enter their file, in the control files' own names. */
  lemma EnteredExactly(o: Limits, k: Kernel)
    ensures var a, none := Entered(o, k), 18_446_744_073_709_551_615;
      var max := o.max != none ==> "memory.max" !in k.sealed;
      var high := max && (o.high != none ==> "memory.high" !in k.sealed);
      var pids := high && (o.pids != none ==> "pids.max" !in k.sealed);
      var cpu := pids && (o.cpuLimit != none ==> "cpu.max" !in k.sealed);
      && (a.max <==> o.max != none && max && ("memory.max", PrintLimit(o.max)) !in k.refused)
      && (a.high <==> o.high != none && high && ("memory.high", PrintLimit(o.high)) !in k.refused)
      && (a.pids <==> o.pids != none && pids && ("pids.max", PrintLimit(o.pids)) !in k.refused)
      && (a.cpu <==> o.cpuLimit != none && cpu
                     && ("cpu.max", CpuText(AsSigned(o.cpuLimit), AsSigned(o.cpuWindow))) !in k.refused)
      && (Opened(AskedFor(o), k) == AskedFor(o) <==> cpu)
  {
    hide PrintLimit, CpuText, AsSigned;
  }

  predicate Holds(files: Files, files': Files, c: bool, name: string, text: string) {
    if c then name in files' && files'[name] == text else SameAt(files, files', name)
  }

  lemma FourFiles(f: Files, n1: string, n2: string, n3: string, n4: string,
                  a: Asked, t1: string, t2: string, t3: string, t4: string)
    requires n1 != n2 && n1 != n3 && n1 != n4 && n2 != n3 && n2 != n4 && n3 != n4
    ensures var f' := Put(Put(Put(Put(f, a.max, n1, t1), a.high, n2, t2), a.pids, n3, t3), a.cpu, n4, t4);
      && Holds(f, f', a.max, n1, t1) && Holds(f, f', a.high, n2, t2) && Holds(f, f', a.pids, n3, t3) && Holds(f, f', a.cpu, n4, t4)
      && forall name :: name !in {n1, n2, n3, n4} ==> SameAt(f, f', name)
  {
  }

  lemma NamesDiffer()
    ensures MEMORY_MAX != MEMORY_HIGH && PIDS_MAX != CPU_MAX
    ensures MEMORY_MAX != PIDS_MAX && MEMORY_MAX != CPU_MAX && MEMORY_HIGH != PIDS_MAX && MEMORY_HIGH != CPU_MAX
  {
    assert MEMORY_MAX[7] != MEMORY_HIGH[7];
  }

  /**
   Success says nothing about refusals: whatever else the kernel may refuse, the constructor ends
   the same way; if it refuses everything, that is with all files as they were.
   */
  lemma RefusedLimitsGoUnnoticed(files: Files, k: Kernel, k': Kernel, o: Limits)
    requires k'.sealed == k.sealed
    ensures WriteAll(files, k', Wanted(o)).0 == WriteAll(files, k, Wanted(o)).0
    ensures Entered(o, k') == Asked(false, false, false, false) ==> WriteAll(files, k', Wanted(o)).1 == files
  {
    ConfiguresExactlyWhenOpened(files, k, o);
    ConfiguresExactlyWhenOpened(files, k', o);
    hide WriteAll, Wanted, PrintLimit, CpuText, Entered;
  }

  /** Signed counts survive the builder's unsigned fields; a limit of -1 is the one that counts as none. */
  lemma WindowSurvives(o: Limits, limit: int, window: int)
    requires IsInt64(limit) && IsInt64(window)
    ensures var o' := WithCpuWindow(o, limit, window);
      && AsSigned(o'.cpuLimit) == limit && AsSigned(o'.cpuWindow) == window
      && (o'.cpuLimit == NO_LIMIT <==> limit == -1)
      && (InRange(o) ==> InRange(o'))
  {
    SignedComesBack(limit);
    SignedComesBack(window);
  }

  /** Decimal notation with a minus sign for negative numbers. */
  predicate IsSigned(s: string) {
    s != "" && if s[0] == '-' then |s| > 1 && AllDigits(s[1..]) else AllDigits(s)
  }

  function SignedNumber(s: string): int
    requires IsSigned(s)
  {
    if s[0] == '-' then 0 - Number(s[1..]) else Number(s)
  }

  lemma SignedSurvives(x: int)
    ensures IsSigned(SignedDecimal(x)) && SignedNumber(SignedDecimal(x)) == x
    ensures IsWord(SignedDecimal(x))
  {
    var digits := Decimal(if x < 0 then -x else x);
    assert forall i :: 0 <= i < |digits| ==> IsDigit(digits[i]);
    NumberOfDecimal(if x < 0 then -x else x);
    assert x < 0 ==> SignedDecimal(x)[1..] == digits;
    assert IsDigit(digits[0]);
  }

  lemma TwoWords(l: string, w: string)
    requires IsWord(l) && IsWord(w)
    ensures Words(l + " " + w) == [l, w]
  {
    var fields := [Field(l, " "), Field(w, "")];
    assert fields[1..] == [Field(w, "")] && fields[1..][1..] == [];
    assert Laid(fields[1..]) == w;
    assert "" + Laid(fields) == l + " " + w;
    LaidWordsAreFound("", fields);
    assert WordsOf(fields[1..]) == [w];
  }

  /** The text for `cpu.max` is two words that say the two counts. */
  lemma CpuTextSurvives(limit: int, window: int)
    ensures var words := Words(CpuText(limit, window));
      && |words| == 2 && IsSigned(words[0]) && IsSigned(words[1])
      && SignedNumber(words[0]) == limit && SignedNumber(words[1]) == window
  {
    SignedSurvives(limit);
    SignedSurvives(window);
    hide SignedDecimal, Words, IsWord, IsSigned, SignedNumber;
    TwoWords(SignedDecimal(limit), SignedDecimal(window));
  }
}
