// executor.rs: `copy_if_changed` and `create_new` of the real executor and of the dry run, on files that are
// whole. What a call does to them is what the publication inside it amounts to (see OnePublication).

module DryRun {
  import opened Shared
  import opened Bytes
  import opened DurableFs
  import P = Publish
  import O = OnePublication

  type Path = string
  type Files = map<Path, File>

  datatype Error = Cancelled | Io
  datatype Result<T> = Ok(value: T) | Err(error: Error)

  datatype Copied = Copied | Unchanged

  datatype PlannedKind = CopyFile | Skip | WriteFile

  datatype PlannedAction = PlannedAction(kind: PlannedKind, src: Option<Path>, dst: Option<Path>, reason: string)

  /** util::cmp_files: both can be read and the bytes are equal. */
  predicate SameBytes(files: Files, a: Path, b: Path) {
    a in files && b in files && files[a].bytes == files[b].bytes
  }

  function ModeOf(files: Files, p: Path): Option<nat> {
    if p in files then Some(files[p].mode) else None
  }

  /** Four octal digits, as `{:04o}` prints a mode below 0o10000. */
  function Octal4(mode: nat): string {
    [OctalDigit(mode / 512), OctalDigit(mode / 64), OctalDigit(mode / 8), OctalDigit(mode)]
  }

  function OctalDigit(n: nat): char {
    ['0', '1', '2', '3', '4', '5', '6', '7'][n % 8]
  }

  // ---------------------------------------------------------------- what the calls do, as functions

  /** RealExecutor::copy_if_changed once it is not cancelled; `io` says whether the writes succeed. */
  function RealCopy(files: Files, src: Path, dst: Path, io: bool): (Files, Result<Copied>) {
    if SameBytes(files, src, dst) then
      if files[src].mode == files[dst].mode then (files, Ok(Unchanged))
      else if io then (files[dst := files[dst].(mode := files[src].mode)], Ok(Copied))
      else (files, Err(Io))
    else if io && src in files then (files[dst := files[src]], Ok(Copied))
    else (files, Err(Io))
  }

  /** How the system calls of a creation turn out. When only the last one fails, the sync of the directory,
      the file is there although the call reports an error. */
  datatype Fate = Smooth | PublishFails | SyncFails

  function RealCreate(files: Files, path: Path, bytes: seq<Byte>, fate: Fate): (Files, Result<bool>) {
    if fate == PublishFails then (files, Err(Io))
    else if path in files then (files, Ok(false))
    else (files[path := File(bytes, MODE_0644)], if fate == SyncFails then Err(Io) else Ok(true))
  }

  function DryCopy(files: Files, src: Path, dst: Path): (Copied, PlannedAction) {
    if SameBytes(files, src, dst) then
      if files[src].mode == files[dst].mode
      then (Unchanged, PlannedAction(Skip, Some(src), Some(dst), "bytes already match"))
      else (Copied, PlannedAction(CopyFile, Some(src), Some(dst),
              "bytes match, mode " + Octal4(files[dst].mode) + " differs from source " + Octal4(files[src].mode)))
    else
      (Copied, PlannedAction(CopyFile, Some(src), Some(dst),
         if dst in files then "differs from source" else "destination absent"))
  }

  function DryCreate(files: Files, path: Path, bytes: seq<Byte>): (bool, PlannedAction) {
    if path in files then (false, PlannedAction(Skip, None, Some(path), "already exists"))
    else (true, PlannedAction(WriteFile, None, Some(path), Decimal(|bytes|) + " bytes"))
  }

  // ---------------------------------------------------------------- what the publications inside amount to

  /** The copying branch is copy_atomic run to its end, whatever fails in it. */
  lemma CopyIsPublication(s0: P.State, turns: seq<P.Turn>, src: Path)
    requires O.Alone(s0) && s0.callers[0].kind == P.Copy
    requires var s := P.Run(s0, turns); |s.callers| == 1 && s.callers[0].pc.Finished?
    requires var c, files := s0.callers[0], O.Seen(s0.fs, s0.callers[0].tmp);
             src in files && files[src] == File(c.bytes, c.mode) && !SameBytes(files, src, c.path)
    ensures var s, c, files := P.Run(s0, turns), s0.callers[0], O.Seen(s0.fs, s0.callers[0].tmp);
            var io := s.callers[0].pc == P.Finished(P.Written);
            RealCopy(files, src, c.path, io) == (O.Seen(s.fs, c.tmp), if io then Ok(Copied) else Err(Io))
  {
    hide O.Seen, O.Alone, P.Run;
    O.CopyIsOneUpdate(s0, turns);
  }

  function CreationResult(r: P.Result): Result<bool> {
    match r
    case Created => Ok(true)
    case AlreadyThere => Ok(false)
    case _ => Err(Io)
  }

  /** An exclusive creation is create_new_real run to its end, with one of the three fates. */
  lemma CreationIsPublication(s0: P.State, turns: seq<P.Turn>)
    requires O.Alone(s0) && s0.callers[0].kind == P.CreateNew
    requires var s := P.Run(s0, turns); |s.callers| == 1 && s.callers[0].pc.Finished?
    ensures var s, c, files := P.Run(s0, turns), s0.callers[0], O.Seen(s0.fs, s0.callers[0].tmp);
            exists fate :: RealCreate(files, c.path, c.bytes, fate)
                           == (O.Seen(s.fs, c.tmp), CreationResult(s.callers[0].pc.result))
  {
    hide O.Seen, P.Initial, P.Run;
    O.CreationIsOneUpdate(s0, turns);
    var s, c, files := P.Run(s0, turns), s0.callers[0], O.Seen(s0.fs, s0.callers[0].tmp);
    var fate := if !s.callers[0].pc.result.Failed? then Smooth
                else if O.Seen(s.fs, c.tmp) == files then PublishFails else SyncFails;
    assert RealCreate(files, c.path, c.bytes, fate) == (O.Seen(s.fs, c.tmp), CreationResult(s.callers[0].pc.result));
  }

  // ---------------------------------------------------------------- the two executors

  /** RealExecutor: a cancelled run refuses to touch anything. */
  class RealExecutor {
    var files: Files
    var cancelled: bool

    constructor (files: Files)
      ensures this.files == files && !cancelled
    {
      this.files, cancelled := files, false;
    }

    method CopyIfChanged(src: Path, dst: Path, io: bool) returns (r: Result<Copied>)
      modifies this`files
      ensures (files, r) == if cancelled then (old(files), Err(Cancelled)) else RealCopy(old(files), src, dst, io)
    {
      if cancelled {
        return Err(Cancelled);
      }
      if SameBytes(files, src, dst) {
        var want, have := ModeOf(files, src), ModeOf(files, dst);
        if want.Some? && have.Some? && want.value != have.value {
          if !io {
            return Err(Io);
          }
          files := files[dst := files[dst].(mode := want.value)];
          return Ok(Copied);
        }
        return Ok(Unchanged);
      }
      if !io || src !in files {
        return Err(Io);
      }
      files := files[dst := files[src]];
      r := Ok(Copied);
    }

    method CreateNew(path: Path, bytes: seq<Byte>, fate: Fate) returns (r: Result<bool>)
      modifies this`files
      ensures (files, r) == if cancelled then (old(files), Err(Cancelled))
                            else RealCreate(old(files), path, bytes, fate)
    {
      if cancelled {
        return Err(Cancelled);
      }
      if fate == PublishFails {
        return Err(Io);
      }
      if path in files {
        return Ok(false);
      }
      files := files[path := File(bytes, MODE_0644)];
      if fate == SyncFails {
        return Err(Io);
      }
      r := Ok(true);
    }
  }

  /** DryRunExecutor: looks at the same files, changes none, and records what it would do. */
  class DryRunExecutor {
    const files: Files
    var plan: seq<PlannedAction>

    constructor (files: Files)
      ensures this.files == files && plan == []
    {
      this.files, plan := files, [];
    }

    method Record(kind: PlannedKind, src: Option<Path>, dst: Option<Path>, reason: string)
      modifies this`plan
      ensures plan == old(plan) + [PlannedAction(kind, src, dst, reason)]
    {
      plan := plan + [PlannedAction(kind, src, dst, reason)];
    }

    method CopyIfChanged(src: Path, dst: Path) returns (r: Result<Copied>)
      modifies this`plan
      ensures r == Ok(DryCopy(files, src, dst).0)
      ensures plan == old(plan) + [DryCopy(files, src, dst).1]
    {
      if SameBytes(files, src, dst) {
        var want, have := ModeOf(files, src), ModeOf(files, dst);
        if want.Some? && have.Some? && want.value != have.value {
          Record(CopyFile, Some(src), Some(dst),
                 "bytes match, mode " + Octal4(have.value) + " differs from source " + Octal4(want.value));
          return Ok(Copied);
        }
        Record(Skip, Some(src), Some(dst), "bytes already match");
        return Ok(Unchanged);
      }
      var reason := if dst in files then "differs from source" else "destination absent";
      Record(CopyFile, Some(src), Some(dst), reason);
      r := Ok(Copied);
    }

    method CreateNew(path: Path, bytes: seq<Byte>) returns (r: Result<bool>)
      modifies this`plan
      ensures r == Ok(DryCreate(files, path, bytes).0)
      ensures plan == old(plan) + [DryCreate(files, path, bytes).1]
    {
      if path in files {
        Record(Skip, None, Some(path), "already exists");
        return Ok(false);
      }
      Record(WriteFile, None, Some(path), Decimal(|bytes|) + " bytes");
      r := Ok(true);
    }
  }

  // ---------------------------------------------------------------- one call, dry and for real

  datatype Op =
    | CopyOp(src: Path, dst: Path)
    | CreateOp(path: Path, bytes: seq<Byte>)

  /** What the caller is told: Copied / Unchanged, or whether the file was created. */
  datatype Verdict = CopyVerdict(copied: Copied) | CreateVerdict(created: bool)

  function RealStep(files: Files, op: Op, fate: Fate): (Files, Result<Verdict>) {
    match op
    case CopyOp(src, dst) =>
      var (files', r) := RealCopy(files, src, dst, fate == Smooth);
      (files', if r.Ok? then Ok(CopyVerdict(r.value)) else Err(r.error))
    case CreateOp(path, bytes) =>
      var (files', r) := RealCreate(files, path, bytes, fate);
      (files', if r.Ok? then Ok(CreateVerdict(r.value)) else Err(r.error))
  }

  function DryStep(files: Files, op: Op): (Verdict, PlannedAction) {
    match op
    case CopyOp(src, dst) => var (c, a) := DryCopy(files, src, dst); (CopyVerdict(c), a)
    case CreateOp(path, bytes) => var (b, a) := DryCreate(files, path, bytes); (CreateVerdict(b), a)
  }

  /** Nothing to do, according to the verdict. */
  predicate Idle(v: Verdict) {
    v == CopyVerdict(Unchanged) || v == CreateVerdict(false)
  }

  function Target(op: Op): Path {
    match op
    case CopyOp(_, dst) => dst
    case CreateOp(path, _) => path
  }

  /** Wherever the real call succeeds the dry call on the same files answers the same; its one action
      names the target and is a Skip exactly when the real call changes nothing. */
  lemma DryRefinesReal(files: Files, op: Op, fate: Fate)
    requires RealStep(files, op, fate).1.Ok?
    ensures var (files', r) := RealStep(files, op, fate);
            var (verdict, action) := DryStep(files, op);
            && r.value == verdict
            && action.dst == Some(Target(op))
            && (action.kind == Skip <==> files' == files)
            && (action.kind == Skip <==> Idle(verdict))
            && forall p :: p != Target(op) ==> (p in files' <==> p in files) && (p in files ==> files'[p] == files[p])
  {
    if op.CopyOp? && SameBytes(files, op.src, op.dst) && files[op.src].mode != files[op.dst].mode {
      assert RealStep(files, op, fate).0[op.dst].mode != files[op.dst].mode;
    }
    if op.CopyOp? && !SameBytes(files, op.src, op.dst) && op.dst in files {
      assert RealStep(files, op, fate).0[op.dst].bytes != files[op.dst].bytes;
    }
    if op.CopyOp? && op.dst !in files {
      assert op.dst in RealStep(files, op, fate).0;
    }
    if op.CreateOp? && op.path !in files {
      assert op.path in RealStep(files, op, fate).0;
    }
  }

  /** When the real call succeeds: a copy with nothing to do always, any other if its source is there and no
      system call fails; a creation if its file is there or everything works. An error leaves the files as
      they were, except that a created file stays where only the directory could not be synced. */
  lemma RealSucceedsWhen(files: Files, op: Op, fate: Fate)
    ensures var (files', r) := RealStep(files, op, fate);
            && (r.Ok? <==> match op
                           case CopyOp(src, dst) =>
                             src in files && (fate == Smooth || (dst in files && files[dst] == files[src]))
                           case CreateOp(path, _) => fate != PublishFails && (fate == Smooth || path in files))
            && (r.Err? ==> files' == if op.CreateOp? && fate == SyncFails then files[op.path := File(op.bytes, 420)]
                                     else files)
  {
  }

  // ---------------------------------------------------------------- what the plan tells its reader

  function DigitValue(c: char): nat {
    if '0' <= c <= '9' then c as nat - '0' as nat else 0
  }

  /** The number a run of digits stands for. */
  function Value(digits: string, base: nat): nat {
    if digits == [] then 0
    else base * Value(digits[..|digits| - 1], base) + DigitValue(digits[|digits| - 1])
  }

  lemma ValueSnoc(digits: string, c: char, base: nat)
    ensures Value(digits + [c], base) == base * Value(digits, base) + DigitValue(c)
  {
    assert (digits + [c])[..|digits + [c]| - 1] == digits;
  }

  lemma DigitReads(n: nat)
    ensures n < 10 ==> DigitValue(['0', '1', '2', '3', '4', '5', '6', '7', '8', '9'][n]) == n
    ensures DigitValue(OctalDigit(n)) == n % 8
  {
  }

  lemma {:induction false} DecimalReads(n: nat)
    ensures Value(Decimal(n), 10) == n
  {
    hide Value, DigitValue;
    var front := if n < 10 then "" else Decimal(n / 10);
    var last := ['0', '1', '2', '3', '4', '5', '6', '7', '8', '9'][n % 10];
    assert Decimal(n) == front + [last];
    ValueSnoc(front, last, 10);
    DigitReads(n % 10);
    if n < 10 {
      NoDigits(10);
    } else {
      DecimalReads(n / 10);
    }
  }

  lemma NoDigits(base: nat)
    ensures Value("", base) == 0
  {
  }

  lemma OctalParts(mode: nat)
    requires mode < 4096
    ensures mode == 8 * (8 * (8 * ((mode / 512) % 8) + (mode / 64) % 8) + (mode / 8) % 8) + mode % 8
  {
    assert mode / 64 == 8 * (mode / 512) + (mode / 64) % 8;
    assert mode / 8 == 8 * (mode / 64) + (mode / 8) % 8;
  }

  lemma OctalReads(mode: nat)
    requires mode < 4096
    ensures |Octal4(mode)| == 4 && Value(Octal4(mode), 8) == mode
  {
    hide Value, DigitValue, OctalDigit;
    OctalParts(mode);
    var a, b, c, d := OctalDigit(mode / 512), OctalDigit(mode / 64), OctalDigit(mode / 8), OctalDigit(mode);
    NoDigits(8);
    DigitReads(mode / 512);
    DigitReads(mode / 64);
    DigitReads(mode / 8);
    DigitReads(mode);
    ValueSnoc("", a, 8);
    ValueSnoc([a], b, 8);
    ValueSnoc([a, b], c, 8);
    ValueSnoc([a, b, c], d, 8);
    assert "" + [a] == [a] && [a] + [b] == [a, b] && [a, b] + [c] == [a, b, c] && [a, b, c] + [d] == Octal4(mode);
  }

  /** What the recorded reason tells of a copy that makes `after` of what was there `before`. */
  predicate CopyReason(reason: string, before: Option<File>, after: File) {
    if before == None then reason == "destination absent"
    else if before.value.bytes != after.bytes then reason == "differs from source"
    else if before.value.mode == after.mode then reason == "bytes already match"
    else
      && |reason| == 47 && reason[..18] == "bytes match, mode " && reason[22..43] == " differs from source "
      && Value(reason[18..22], 8) == before.value.mode && Value(reason[43..], 8) == after.mode
  }

  lemma ModeReason(have: nat, want: nat)
    requires have < 4096 && want < 4096
    ensures var reason := "bytes match, mode " + Octal4(have) + " differs from source " + Octal4(want);
            && |reason| == 47 && reason[..18] == "bytes match, mode " && reason[22..43] == " differs from source "
            && Value(reason[18..22], 8) == have && Value(reason[43..], 8) == want
  {
    hide Octal4, Value;
    OctalReads(have);
    OctalReads(want);
    var a, b := "bytes match, mode ", " differs from source ";
    var reason := a + Octal4(have) + b + Octal4(want);
    assert |a| == 18 && |b| == 21;
    assert reason[..18] == a && reason[18..22] == Octal4(have);
    assert reason[22..43] == b && reason[43..] == Octal4(want);
  }

  /** The plan can be read: one action that names source and target, and whose reason tells what the real
      call makes of the target, down to both modes when only the mode would change, or how many bytes a
      creation would write. */
  lemma PlanSaysWhat(files: Files, op: Op, fate: Fate)
    requires RealStep(files, op, fate).1.Ok?
    requires forall p :: p in files ==> files[p].mode < 4096
    ensures var after := RealStep(files, op, fate).0;
            var action := DryStep(files, op).1;
            && action.dst == Some(Target(op)) && Target(op) in after
            && (action.kind == Skip <==> after == files)
            && match op
               case CopyOp(src, dst) =>
                 && action.src == Some(src) && (action.kind == Skip || action.kind == CopyFile)
                 && CopyReason(action.reason, if dst in files then Some(files[dst]) else None, after[dst])
               case CreateOp(path, bytes) =>
                 && action.src == None && (action.kind == Skip || action.kind == WriteFile)
                 && (action.reason == "already exists" <==> action.kind == Skip)
                 && (action.kind == WriteFile ==>
                       && |action.reason| >= 6 && action.reason[|action.reason| - 6..] == " bytes"
                       && Value(action.reason[..|action.reason| - 6], 10) == |after[path].bytes|)
  {
    hide Value, Octal4, Decimal;
    DryRefinesReal(files, op, fate);
    match op
    case CopyOp(src, dst) =>
      if SameBytes(files, src, dst) {
        ModeReason(files[dst].mode, files[src].mode);
      }
    case CreateOp(path, bytes) =>
      var reason := Decimal(|bytes|) + " bytes";
      DecimalReads(|bytes|);
      assert |reason| == |Decimal(|bytes|)| + 6;
      assert reason[..|reason| - 6] == Decimal(|bytes|) && reason[|reason| - 6..] == " bytes";
  }

  /** After a copy the destination is the source, bytes and mode, and a second copy finds that out. */
  lemma SecondCopyIsUnchanged(files: Files, src: Path, dst: Path, io: bool, again: bool)
    requires RealCopy(files, src, dst, io).1.Ok?
    ensures var files' := RealCopy(files, src, dst, io).0;
            && src in files' && dst in files' && files'[dst] == files'[src]
            && RealCopy(files', src, dst, again) == (files', Ok(Unchanged))
  {
  }

  // ---------------------------------------------------------------- a whole script

  function RealScript(files: Files, ops: seq<Op>): Files
    decreases |ops|
  {
    if ops == [] then files else RealScript(RealStep(files, ops[0], Smooth).0, ops[1..])
  }

  /** What the dry run says of a script: every call looks at the files as they are now. */
  function DryVerdicts(files: Files, ops: seq<Op>): seq<Verdict>
    decreases |ops|
  {
    if ops == [] then [] else [DryStep(files, ops[0]).0] + DryVerdicts(files, ops[1..])
  }

  /** What the real run says, call by call; it stops at the first error. */
  function RealVerdicts(files: Files, ops: seq<Op>): seq<Verdict>
    decreases |ops|
  {
    if ops == [] then []
    else
      var (files', r) := RealStep(files, ops[0], Smooth);
      if r.Err? then [] else [r.value] + RealVerdicts(files', ops[1..])
  }

  /** The paths a call looks at. */
  function Looks(op: Op): set<Path> {
    match op
    case CopyOp(src, dst) => {src, dst}
    case CreateOp(path, _) => {path}
  }

  /** No call looks at a path that an earlier one may have written. */
  predicate Independent(ops: seq<Op>) {
    forall i, j :: 0 <= i < j < |ops| ==> Target(ops[i]) !in Looks(ops[j])
  }

  predicate AgreeOn(x: Files, y: Files, paths: set<Path>) {
    forall p :: p in paths ==> (p in x <==> p in y) && (p in x ==> x[p] == y[p])
  }

  lemma StepLooksOnly(x: Files, y: Files, op: Op)
    requires AgreeOn(x, y, Looks(op))
    ensures DryStep(x, op) == DryStep(y, op) && RealStep(x, op, Smooth).1 == RealStep(y, op, Smooth).1
  {
    match op
    case CopyOp(src, dst) => assert src in Looks(op) && dst in Looks(op);
    case CreateOp(path, _) => assert path in Looks(op);
  }

  lemma {:induction false} VerdictsLookOnly(x: Files, y: Files, ops: seq<Op>)
    requires forall k :: 0 <= k < |ops| ==> AgreeOn(x, y, Looks(ops[k]))
    ensures DryVerdicts(x, ops) == DryVerdicts(y, ops)
    decreases |ops|
  {
    if ops != [] {
      StepLooksOnly(x, y, ops[0]);
      VerdictsLookOnly(x, y, ops[1..]);
    }
  }

  /** A dry run of a whole script foretells the verdicts of the real one, call by call, as long as no
      call depends on what an earlier one writes. */
  lemma {:induction false} DryScriptForetells(files: Files, ops: seq<Op>)
    requires Independent(ops)
    ensures RealVerdicts(files, ops) <= DryVerdicts(files, ops)
    ensures (forall k :: 0 <= k < |ops| && ops[k].CopyOp? ==> ops[k].src in files)
            ==> RealVerdicts(files, ops) == DryVerdicts(files, ops)
    decreases |ops|
  {
    if ops != [] {
      var (files', r) := RealStep(files, ops[0], Smooth);
      if r.Ok? {
        DryRefinesReal(files, ops[0], Smooth);
        DryScriptForetells(files', ops[1..]);
        forall k | 0 <= k < |ops[1..]|
          ensures AgreeOn(files, files', Looks(ops[1..][k]))
        {
          assert ops[1..][k] == ops[k + 1];
        }
        VerdictsLookOnly(files, files', ops[1..]);
      }
    }
  }

  lemma {:induction false} DryVerdictAt(files: Files, ops: seq<Op>, k: nat)
    requires k < |ops|
    ensures |DryVerdicts(files, ops)| == |ops| && DryVerdicts(files, ops)[k] == DryStep(files, ops[k]).0
    decreases |ops|
  {
    if k > 0 {
      DryVerdictAt(files, ops[1..], k - 1);
    } else if |ops| > 1 {
      DryVerdictAt(files, ops[1..], 0);
    }
  }

  /** No earlier call of the script has the path for its target. */
  predicate Untargeted(ops: seq<Op>, k: nat, path: Path)
    requires k <= |ops|
  {
    forall i :: 0 <= i < k ==> Target(ops[i]) != path
  }

  /** What the real run answers to a creation: has the file been there, or an earlier call put it there? */
  lemma {:induction false} RealCreationAt(files: Files, ops: seq<Op>, k: nat)
    requires k < |ops| && ops[k].CreateOp? && k < |RealVerdicts(files, ops)|
    ensures RealVerdicts(files, ops)[k] == CreateVerdict(ops[k].path !in files && Untargeted(ops, k, ops[k].path))
    decreases |ops|
  {
    if k > 0 {
      var path := ops[k].path;
      var files' := RealStep(files, ops[0], Smooth).0;
      DryRefinesReal(files, ops[0], Smooth);
      RealCreationAt(files', ops[1..], k - 1);
      TargetExists(files, ops[0]);
      assert path in files' <==> path in files || Target(ops[0]) == path;
      assert Untargeted(ops, k, path) <==> Target(ops[0]) != path && Untargeted(ops[1..], k - 1, path) by {
        assert forall i :: 0 <= i < k - 1 ==> ops[1..][i] == ops[i + 1];
        assert forall i :: 1 <= i < k ==> ops[i] == ops[1..][i - 1];
      }
    }
  }

  lemma TargetExists(files: Files, op: Op)
    requires RealStep(files, op, Smooth).1.Ok?
    ensures Target(op) in RealStep(files, op, Smooth).0
  {
  }

  /** In any script, whatever its calls depend on: the dry run foretells a creation the real run gets to
      exactly when the file is there already or no earlier call has it for its target. */
  lemma CreationForetold(files: Files, ops: seq<Op>, k: nat)
    requires k < |ops| && ops[k].CreateOp? && k < |RealVerdicts(files, ops)|
    ensures |DryVerdicts(files, ops)| == |ops|
    ensures RealVerdicts(files, ops)[k] == DryVerdicts(files, ops)[k]
            <==> ops[k].path in files || Untargeted(ops, k, ops[k].path)
  {
    hide RealVerdicts, DryVerdicts;
    DryVerdictAt(files, ops, k);
    RealCreationAt(files, ops, k);
  }

  /** The condition is needed: creating a file twice is a Write and a Skip for real, two Writes dry. */
  lemma DependentScriptDiffers(path: Path, bytes: seq<Byte>)
    ensures var ops := [CreateOp(path, bytes), CreateOp(path, bytes)];
            && RealVerdicts(map[], ops) == [CreateVerdict(true), CreateVerdict(false)]
            && DryVerdicts(map[], ops) == [CreateVerdict(true), CreateVerdict(true)]
  {
    var ops := [CreateOp(path, bytes), CreateOp(path, bytes)];
    var none: Files := map[];
    var files1 := RealStep(none, ops[0], Smooth).0;
    assert ops[1..] == [CreateOp(path, bytes)] && ops[1..][1..] == [];
    assert RealVerdicts(files1, ops[1..]) == [CreateVerdict(false)];
    assert DryVerdicts(none, ops[1..]) == [CreateVerdict(true)];
  }
}
