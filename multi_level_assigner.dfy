/** The assigner handlers of the multi-level fixture protocol and their declarations.

    Families: an integer chain (a, and its copy d), a slow step guarded by a
    delay field that feeds a manual and an automatic consumer (b), two auto_first
    sums (c, e), a converging integer pipeline (f), a diamond that fans out and
    meets again over five stages (g), and a string pipeline that joins pieces,
    cuts the joined text into fixed-width slices and glues them back together (h).

    Every field of the protocol is named by its family letter followed by its
    stage number ("g15"); `Field` builds that name.
 */
module MultiLevelAssigner {
  import opened Values
  import opened Text
  import opened Declarations

  /** The handler functions of the protocol, one per `@assigner` declaration. */
  datatype Assigner =
    | A3 | A4 | A5
    | B5Manual | BSlowAuto | BDownstreamManual | BDownstreamAuto
    | CAutoFirst
    | D3 | D4 | D5
    | EAutoFirstMissingDefaults
    | F6 | F7 | F8 | F9 | F10 | F11 | F12 | F13 | F14 | F15
    | GStage1a | GStage1b | GStage1c | GStage2a | GStage2b | GStage3 | GStage4 | GStage5
    | HPieceBuilder | HJoiner | HSplitter | HRecombine

  /** The two `_now_iso()` readings a timed b handler takes: around its sleep in
      `line_b_slow_auto`, around its computation in the two b consumers. */
  datatype Clock = Clock(startedAt: string, finishedAt: string)

  // ---------------------------------------------------------------------------
  // Field names and declarations
  // ---------------------------------------------------------------------------

  /** A field of the protocol: its family letter and its stage number. */
  datatype Field = Field(family: char, stage: nat)

  /** The record a handler reads from and writes to, keyed by field. */
  type Record = map<Field, Value>

  /** The name of a field in the protocol: the name of `Field('g', 15)` is "g15". */
  function Name(f: Field): string {
    [f.family] + NatToDecimal(f.stage)
  }

  /** The names of several stages of one family, in order. */
  function Names(family: char, stages: seq<nat>): seq<string>
  {
    seq(|stages|, i requires 0 <= i < |stages| => Name(Field(family, stages[i])))
  }

  /** Different fields have different names, so a record keyed by `Field` carries
      exactly the information of a mapping keyed by name. */
  lemma NameInjective(f1: Field, f2: Field)
    requires Name(f1) == Name(f2)
    ensures f1 == f2
  {
    assert Name(f1)[0] == f1.family && Name(f2)[0] == f2.family;
    assert Name(f1)[1..] == NatToDecimal(f1.stage);
    assert Name(f2)[1..] == NatToDecimal(f2.stage);
    DecimalInjective(f1.stage, f2.stage);
  }

  /** A name is among `Names(family, stages)` exactly when its stage is among `stages`. */
  lemma NamesMembers(family: char, stages: seq<nat>)
    ensures forall n :: n in stages ==> Name(Field(family, n)) in Names(family, stages)
    ensures forall f :: f in Names(family, stages) ==> exists n :: n in stages && f == Name(Field(family, n))
  {
    forall n | n in stages
      ensures Name(Field(family, n)) in Names(family, stages)
    {
      var i :| 0 <= i < |stages| && stages[i] == n;
      assert Names(family, stages)[i] == Name(Field(family, n));
    }
  }

  /** A declaration in stage numbers: every field of a declaration belongs to one family. */
  datatype Staged = Staged(family: char, assignedStages: seq<nat>, dependentStages: seq<nat>, mode: Mode)

  /** The `@assigner(...)` decorator of each handler, in stage numbers. */
  function Declared(h: Assigner): Staged {
    match h
    case A3 => Staged('a', [3], [1, 2], Auto)
    case A4 => Staged('a', [4], [3], Auto)
    case A5 => Staged('a', [5], [4], Auto)
    case B5Manual => Staged('b', [5], [1, 2, 3], Manual)
    case BSlowAuto => Staged('b', [6, 7, 8], [5, 4], Auto)
    case BDownstreamManual => Staged('b', [9, 10, 11], [5, 6], Manual)
    case BDownstreamAuto => Staged('b', [12, 13, 14], [5, 6], Auto)
    case CAutoFirst => Staged('c', [3], [1, 2], AutoFirst)
    case D3 => Staged('d', [3], [1, 2], Auto)
    case D4 => Staged('d', [4], [3], Auto)
    case D5 => Staged('d', [5], [4], Auto)
    case EAutoFirstMissingDefaults => Staged('e', [3], [1, 2], AutoFirst)
    case F6 => Staged('f', [6], [1, 2], Auto)
    case F7 => Staged('f', [7], [2, 3], Auto)
    case F8 => Staged('f', [8], [4, 5], Auto)
    case F9 => Staged('f', [9], [6, 7], Auto)
    case F10 => Staged('f', [10], [9, 8], Auto)
    case F11 => Staged('f', [11], [10], Auto)
    case F12 => Staged('f', [12], [11, 6], Auto)
    case F13 => Staged('f', [13], [12, 7], Auto)
    case F14 => Staged('f', [14], [13, 8], Auto)
    case F15 => Staged('f', [15], [14, 1], Auto)
    case GStage1a => Staged('g', [5, 6], [1, 2], Auto)
    case GStage1b => Staged('g', [7, 8], [2, 3], Auto)
    case GStage1c => Staged('g', [9, 10], [3, 4], Auto)
    case GStage2a => Staged('g', [11, 12], [5, 7, 9], Auto)
    case GStage2b => Staged('g', [13, 14], [6, 8, 10], Auto)
    case GStage3 => Staged('g', [15, 16, 17], [11, 12, 13, 14], Auto)
    case GStage4 => Staged('g', [18, 19], [15, 16, 17], Auto)
    case GStage5 => Staged('g', [20], [18, 19], Auto)
    case HPieceBuilder => Staged('h', [9, 10, 11], [1, 2, 3, 4, 5, 6], Auto)
    case HJoiner => Staged('h', [12, 13], [9, 10, 11, 7], Auto)
    case HSplitter => Staged('h', [14, 15, 16, 17], [13, 8], Auto)
    case HRecombine => Staged('h', [18, 19], [14, 15, 16, 17], Auto)
  }

  /** The declaration as the decorator spells it, with field names. */
  function Declaration(h: Assigner): AssignerSpec {
    var d := Declared(h);
    AssignerSpec(Names(d.family, d.assignedStages), Names(d.family, d.dependentStages), d.mode)
  }

  /** The position of each declaration in the protocol file. */
  function Order(h: Assigner): nat {
    match h
    case A3 => 0 case A4 => 1 case A5 => 2
    case B5Manual => 3 case BSlowAuto => 4 case BDownstreamManual => 5 case BDownstreamAuto => 6
    case CAutoFirst => 7
    case D3 => 8 case D4 => 9 case D5 => 10
    case EAutoFirstMissingDefaults => 11
    case F6 => 12 case F7 => 13 case F8 => 14 case F9 => 15 case F10 => 16
    case F11 => 17 case F12 => 18 case F13 => 19 case F14 => 20 case F15 => 21
    case GStage1a => 22 case GStage1b => 23 case GStage1c => 24 case GStage2a => 25
    case GStage2b => 26 case GStage3 => 27 case GStage4 => 28 case GStage5 => 29
    case HPieceBuilder => 30 case HJoiner => 31 case HSplitter => 32 case HRecombine => 33
  }

  datatype Option<T> = None | Some(value: T)

  /** The handler that assigns stage `stage` of family `family`, if any; the stages
      no handler assigns are the protocol's inputs. */
  function Producer(family: char, stage: nat): Option<Assigner> {
    match family
    case 'a' =>
      if stage == 3 then Some(A3) else if stage == 4 then Some(A4)
      else if stage == 5 then Some(A5) else None
    case 'b' =>
      if stage == 5 then Some(B5Manual)
      else if 6 <= stage <= 8 then Some(BSlowAuto)
      else if 9 <= stage <= 11 then Some(BDownstreamManual)
      else if 12 <= stage <= 14 then Some(BDownstreamAuto) else None
    case 'c' => if stage == 3 then Some(CAutoFirst) else None
    case 'd' =>
      if stage == 3 then Some(D3) else if stage == 4 then Some(D4)
      else if stage == 5 then Some(D5) else None
    case 'e' => if stage == 3 then Some(EAutoFirstMissingDefaults) else None
    case 'f' =>
      if stage == 6 then Some(F6) else if stage == 7 then Some(F7)
      else if stage == 8 then Some(F8) else if stage == 9 then Some(F9)
      else if stage == 10 then Some(F10) else if stage == 11 then Some(F11)
      else if stage == 12 then Some(F12) else if stage == 13 then Some(F13)
      else if stage == 14 then Some(F14) else if stage == 15 then Some(F15) else None
    case 'g' =>
      if 5 <= stage <= 6 then Some(GStage1a) else if 7 <= stage <= 8 then Some(GStage1b)
      else if 9 <= stage <= 10 then Some(GStage1c) else if 11 <= stage <= 12 then Some(GStage2a)
      else if 13 <= stage <= 14 then Some(GStage2b) else if 15 <= stage <= 17 then Some(GStage3)
      else if 18 <= stage <= 19 then Some(GStage4) else if stage == 20 then Some(GStage5) else None
    case 'h' =>
      if 9 <= stage <= 11 then Some(HPieceBuilder) else if 12 <= stage <= 13 then Some(HJoiner)
      else if 14 <= stage <= 17 then Some(HSplitter) else if 18 <= stage <= 19 then Some(HRecombine)
      else None
    case _ => None
  }

  /** Every stage a handler declares as assigned is attributed to that handler. */
  lemma AssignedByProducer(h: Assigner)
    ensures forall n :: n in Declared(h).assignedStages ==> Producer(Declared(h).family, n) == Some(h)
  {
    // One case per handler: the split keeps each proof obligation small.
    match h
    case A3 => case A4 => case A5 =>
    case B5Manual => case BSlowAuto => case BDownstreamManual => case BDownstreamAuto =>
    case CAutoFirst =>
    case D3 => case D4 => case D5 =>
    case EAutoFirstMissingDefaults =>
    case F6 => case F7 => case F8 => case F9 => case F10 =>
    case F11 => case F12 => case F13 => case F14 => case F15 =>
    case GStage1a => case GStage1b => case GStage1c => case GStage2a =>
    case GStage2b => case GStage3 => case GStage4 => case GStage5 =>
    case HPieceBuilder => case HJoiner => case HSplitter => case HRecombine =>
  }

  lemma ReadsEarlierChains(h: Assigner)
    requires h in {A3, A4, A5, B5Manual, BSlowAuto, BDownstreamManual, BDownstreamAuto,
                 CAutoFirst, D3, D4, D5, EAutoFirstMissingDefaults}
    ensures forall n :: n in Declared(h).dependentStages ==>
      Producer(Declared(h).family, n).None? || Order(Producer(Declared(h).family, n).value) < Order(h)
  {
    // One case per handler: the split keeps each proof obligation small.
    match h
    case A3 => case A4 => case A5 =>
    case B5Manual => case BSlowAuto => case BDownstreamManual => case BDownstreamAuto =>
    case CAutoFirst =>
    case D3 => case D4 => case D5 =>
    case EAutoFirstMissingDefaults =>
  }

  lemma ReadsEarlierF(h: Assigner)
    requires h in {F6, F7, F8, F9, F10, F11, F12, F13, F14, F15}
    ensures forall n :: n in Declared(h).dependentStages ==>
      Producer(Declared(h).family, n).None? || Order(Producer(Declared(h).family, n).value) < Order(h)
  {
    // One case per handler: the split keeps each proof obligation small.
    match h
    case F6 => case F7 => case F8 => case F9 => case F10 =>
    case F11 => case F12 => case F13 => case F14 => case F15 =>
  }

  lemma ReadsEarlierG(h: Assigner)
    requires h in {GStage1a, GStage1b, GStage1c, GStage2a, GStage2b, GStage3, GStage4, GStage5}
    ensures forall n :: n in Declared(h).dependentStages ==>
      Producer(Declared(h).family, n).None? || Order(Producer(Declared(h).family, n).value) < Order(h)
  {
    // One case per handler: the split keeps each proof obligation small.
    match h
    case GStage1a => case GStage1b => case GStage1c => case GStage2a =>
    case GStage2b => case GStage3 => case GStage4 => case GStage5 =>
  }

  lemma ReadsEarlierH(h: Assigner)
    requires h in {HPieceBuilder, HJoiner, HSplitter, HRecombine}
    ensures forall n :: n in Declared(h).dependentStages ==>
      Producer(Declared(h).family, n).None? || Order(Producer(Declared(h).family, n).value) < Order(h)
  {
    // One case per handler: the split keeps each proof obligation small.
    match h
    case HPieceBuilder => case HJoiner => case HSplitter => case HRecombine =>
  }

  /** Every dependent stage a handler declares is an input or the output of an earlier declaration. */
  lemma DependsOnEarlier(h: Assigner)
    ensures forall n :: n in Declared(h).dependentStages ==>
      Producer(Declared(h).family, n).None? || Order(Producer(Declared(h).family, n).value) < Order(h)
  {
    match Declared(h).family
    case 'f' => ReadsEarlierF(h);
    case 'g' => ReadsEarlierG(h);
    case 'h' => ReadsEarlierH(h);
    case _ => ReadsEarlierChains(h);
  }

  /** No field is assigned by two handlers. */
  lemma UniqueProducers(h1: Assigner, h2: Assigner, f: string)
    requires f in Declaration(h1).assignedFields && f in Declaration(h2).assignedFields
    ensures h1 == h2
  {
    var d1, d2 := Declared(h1), Declared(h2);
    NamesMembers(d1.family, d1.assignedStages);
    NamesMembers(d2.family, d2.assignedStages);
    var n1 :| n1 in d1.assignedStages && f == Name(Field(d1.family, n1));
    var n2 :| n2 in d2.assignedStages && f == Name(Field(d2.family, n2));
    NameInjective(Field(d1.family, n1), Field(d2.family, n2));
    AssignedByProducer(h1);
    AssignedByProducer(h2);
  }

  /** A field a handler declares as dependent is produced, if at all, by a handler declared before it:
      the declaration order is a topological order of the dependency graph, which
      therefore has no cycle. */
  lemma ProducedEarlier(consumer: Assigner, producer: Assigner, f: string)
    requires f in Declaration(consumer).dependentFields && f in Declaration(producer).assignedFields
    ensures Order(producer) < Order(consumer)
  {
    var dc, dp := Declared(consumer), Declared(producer);
    NamesMembers(dc.family, dc.dependentStages);
    NamesMembers(dp.family, dp.assignedStages);
    var n1 :| n1 in dc.dependentStages && f == Name(Field(dc.family, n1));
    var n2 :| n2 in dp.assignedStages && f == Name(Field(dp.family, n2));
    NameInjective(Field(dc.family, n1), Field(dp.family, n2));
    AssignedByProducer(producer);
    DependsOnEarlier(consumer);
  }

  /** No handler lists one of its own assigned fields as a dependent field. */
  lemma NoSelfDependency(h: Assigner, f: string)
    requires f in Declaration(h).assignedFields
    ensures f !in Declaration(h).dependentFields
  {
    if f in Declaration(h).dependentFields {
      ProducedEarlier(h, h, f);
    }
  }

  // ---------------------------------------------------------------------------
  // Delays
  // ---------------------------------------------------------------------------

  /** The outcome of validating a delay field: rejected, or the seconds actually slept. */
  datatype Delay = Rejected | Sleep(seconds: nat)

  /** A negative delay is rejected; a delay above `cap` is lowered to `cap`. */
  function ClampDelay(seconds: int, cap: nat): (d: Delay)
    ensures d.Rejected? <==> seconds < 0
    ensures d.Sleep? ==> d.seconds <= cap && d.seconds <= seconds
    ensures d.Sleep? && seconds <= cap ==> d.seconds == seconds
    ensures d.Sleep? && seconds > cap ==> d.seconds == cap
  {
    if seconds < 0 then Rejected else if seconds > cap then Sleep(cap) else Sleep(seconds)
  }

  /** The delay a handler validates: the field it reads, the cap, and the message it
      fails with when the delay is negative. */
  datatype DelayRule = DelayRule(field: Field, cap: nat, message: string)

  function Rule(h: Assigner): Option<DelayRule> {
    match h
    case BSlowAuto => Some(DelayRule(Field('b', 4), 60, "b4 (delay seconds) must be >= 0."))
    case HPieceBuilder => Some(DelayRule(Field('h', 6), 5, "h6 (piece builder delay seconds) must be >= 0."))
    case HJoiner => Some(DelayRule(Field('h', 7), 5, "h7 (joiner delay seconds) must be >= 0."))
    case HSplitter => Some(DelayRule(Field('h', 8), 5, "h8 (splitter delay seconds) must be >= 0."))
    case _ => None
  }

  // ---------------------------------------------------------------------------
  // The handlers
  // ---------------------------------------------------------------------------

  /** What a handler needs of its mapping: every integer field it reads with
      `int(dependent_fields[...])` holds an integer, every field it reads with
      `str(dependent_fields[...])` is present, and its delay field is readable. */
  predicate Binds(h: Assigner, deps: Record) {
    match h
    case A3 => HasInt(deps, Field('a', 1)) && HasInt(deps, Field('a', 2))
    case A4 => HasInt(deps, Field('a', 3))
    case A5 => HasInt(deps, Field('a', 4))
    case B5Manual => HasInt(deps, Field('b', 1)) && HasInt(deps, Field('b', 2)) && HasInt(deps, Field('b', 3))
    case BSlowAuto => HasInt(deps, Field('b', 5)) && DelayReadable(deps, Field('b', 4))
    case BDownstreamManual => HasInt(deps, Field('b', 5)) && HasInt(deps, Field('b', 6))
    case BDownstreamAuto => HasInt(deps, Field('b', 5)) && HasInt(deps, Field('b', 6))
    case CAutoFirst => HasInt(deps, Field('c', 1)) && HasInt(deps, Field('c', 2))
    case D3 => HasInt(deps, Field('d', 1)) && HasInt(deps, Field('d', 2))
    case D4 => HasInt(deps, Field('d', 3))
    case D5 => HasInt(deps, Field('d', 4))
    case EAutoFirstMissingDefaults => HasInt(deps, Field('e', 1)) && HasInt(deps, Field('e', 2))
    case F6 => HasInt(deps, Field('f', 1)) && HasInt(deps, Field('f', 2))
    case F7 => HasInt(deps, Field('f', 2)) && HasInt(deps, Field('f', 3))
    case F8 => HasInt(deps, Field('f', 4)) && HasInt(deps, Field('f', 5))
    case F9 => HasInt(deps, Field('f', 6)) && HasInt(deps, Field('f', 7))
    case F10 => HasInt(deps, Field('f', 9)) && HasInt(deps, Field('f', 8))
    case F11 => HasInt(deps, Field('f', 10))
    case F12 => HasInt(deps, Field('f', 11)) && HasInt(deps, Field('f', 6))
    case F13 => HasInt(deps, Field('f', 12)) && HasInt(deps, Field('f', 7))
    case F14 => HasInt(deps, Field('f', 13)) && HasInt(deps, Field('f', 8))
    case F15 => HasInt(deps, Field('f', 14)) && HasInt(deps, Field('f', 1))
    case GStage1a => HasInt(deps, Field('g', 1)) && HasInt(deps, Field('g', 2))
    case GStage1b => HasInt(deps, Field('g', 2)) && HasInt(deps, Field('g', 3))
    case GStage1c => HasInt(deps, Field('g', 3)) && HasInt(deps, Field('g', 4))
    case GStage2a => HasInt(deps, Field('g', 5)) && HasInt(deps, Field('g', 7)) && HasInt(deps, Field('g', 9))
    case GStage2b => HasInt(deps, Field('g', 6)) && HasInt(deps, Field('g', 8)) && HasInt(deps, Field('g', 10))
    case GStage3 =>
      HasInt(deps, Field('g', 11)) && HasInt(deps, Field('g', 12))
      && HasInt(deps, Field('g', 13)) && HasInt(deps, Field('g', 14))
    case GStage4 => HasInt(deps, Field('g', 15)) && HasInt(deps, Field('g', 16)) && HasInt(deps, Field('g', 17))
    case GStage5 => HasInt(deps, Field('g', 18)) && HasInt(deps, Field('g', 19))
    case HPieceBuilder =>
      Field('h', 1) in deps && Field('h', 2) in deps && Field('h', 3) in deps
      && Field('h', 4) in deps && Field('h', 5) in deps && DelayReadable(deps, Field('h', 6))
    case HJoiner =>
      Field('h', 9) in deps && Field('h', 10) in deps && Field('h', 11) in deps
      && DelayReadable(deps, Field('h', 7))
    case HSplitter => Field('h', 13) in deps && DelayReadable(deps, Field('h', 8))
    case HRecombine =>
      Field('h', 14) in deps && Field('h', 15) in deps && Field('h', 16) in deps && Field('h', 17) in deps
  }

  /** `line_a3`. */
  function LineA3(deps: Record): AssignerResult<Field>
    requires HasInt(deps, Field('a', 1)) && HasInt(deps, Field('a', 2))
  {
    var a1, a2 := IntAt(deps, Field('a', 1)), IntAt(deps, Field('a', 2));
    Success(map[Field('a', 3) := Int(a1 + a2)])
  }

  /** `line_a4`. */
  function LineA4(deps: Record): AssignerResult<Field>
    requires HasInt(deps, Field('a', 3))
  {
    var a3 := IntAt(deps, Field('a', 3));
    Success(map[Field('a', 4) := Int(a3 * 3)])
  }

  /** `line_a5`. */
  function LineA5(deps: Record): AssignerResult<Field>
    requires HasInt(deps, Field('a', 4))
  {
    var a4 := IntAt(deps, Field('a', 4));
    Success(map[Field('a', 5) := Int(a4 * a4)])
  }

  /** `line_b5_manual`. */
  function LineB5Manual(deps: Record): AssignerResult<Field>
    requires HasInt(deps, Field('b', 1)) && HasInt(deps, Field('b', 2)) && HasInt(deps, Field('b', 3))
  {
    var b1, b2, b3 := IntAt(deps, Field('b', 1)), IntAt(deps, Field('b', 2)), IntAt(deps, Field('b', 3));
    Success(map[Field('b', 5) := Int(b1 * b2 + b3)])
  }

  /** `line_b_slow_auto`: validates and clamps the delay in b4, sleeps, and reports
      the clock before and after the sleep. */
  function LineBSlowAuto(deps: Record, clock: Clock): AssignerResult<Field>
    requires HasInt(deps, Field('b', 5)) && DelayReadable(deps, Field('b', 4))
  {
    var b5 := IntAt(deps, Field('b', 5));
    match ClampDelay(DelayAt(deps, Field('b', 4)), 60)
    case Rejected => Failure("b4 (delay seconds) must be >= 0.")
    case Sleep(_) =>
      Success(map[Field('b', 6) := Int(b5 * 2),
                  Field('b', 7) := Str(clock.startedAt),
                  Field('b', 8) := Str(clock.finishedAt)])
  }

  /** `line_b_downstream_manual`. */
  function LineBDownstreamManual(deps: Record, clock: Clock): AssignerResult<Field>
    requires HasInt(deps, Field('b', 5)) && HasInt(deps, Field('b', 6))
  {
    var b5, b6 := IntAt(deps, Field('b', 5)), IntAt(deps, Field('b', 6));
    Success(map[Field('b', 9) := Int(b5 + b6),
                Field('b', 10) := Str(clock.startedAt),
                Field('b', 11) := Str(clock.finishedAt)])
  }

  /** `line_b_downstream_auto`. */
  function LineBDownstreamAuto(deps: Record, clock: Clock): AssignerResult<Field>
    requires HasInt(deps, Field('b', 5)) && HasInt(deps, Field('b', 6))
  {
    var b5, b6 := IntAt(deps, Field('b', 5)), IntAt(deps, Field('b', 6));
    Success(map[Field('b', 12) := Int(b5 * b6),
                Field('b', 13) := Str(clock.startedAt),
                Field('b', 14) := Str(clock.finishedAt)])
  }

  /** `line_c_auto_first`. */
  function LineCAutoFirst(deps: Record): AssignerResult<Field>
    requires HasInt(deps, Field('c', 1)) && HasInt(deps, Field('c', 2))
  {
    var c1, c2 := IntAt(deps, Field('c', 1)), IntAt(deps, Field('c', 2));
    Success(map[Field('c', 3) := Int(c1 + c2)])
  }

  /** `line_d3`. */
  function LineD3(deps: Record): AssignerResult<Field>
    requires HasInt(deps, Field('d', 1)) && HasInt(deps, Field('d', 2))
  {
    var d1, d2 := IntAt(deps, Field('d', 1)), IntAt(deps, Field('d', 2));
    Success(map[Field('d', 3) := Int(d1 + d2)])
  }

  /** `line_d4`. */
  function LineD4(deps: Record): AssignerResult<Field>
    requires HasInt(deps, Field('d', 3))
  {
    var d3 := IntAt(deps, Field('d', 3));
    Success(map[Field('d', 4) := Int(d3 * 3)])
  }

  /** `line_d5`. */
  function LineD5(deps: Record): AssignerResult<Field>
    requires HasInt(deps, Field('d', 4))
  {
    var d4 := IntAt(deps, Field('d', 4));
    Success(map[Field('d', 5) := Int(d4 * d4)])
  }

  /** `line_e_auto_first_missing_defaults`. */
  function LineEAutoFirstMissingDefaults(deps: Record): AssignerResult<Field>
    requires HasInt(deps, Field('e', 1)) && HasInt(deps, Field('e', 2))
  {
    var e1, e2 := IntAt(deps, Field('e', 1)), IntAt(deps, Field('e', 2));
    Success(map[Field('e', 3) := Int(e1 + e2)])
  }

  /** `line_f6`. */
  function LineF6(deps: Record): AssignerResult<Field>
    requires HasInt(deps, Field('f', 1)) && HasInt(deps, Field('f', 2))
  {
    var f1, f2 := IntAt(deps, Field('f', 1)), IntAt(deps, Field('f', 2));
    Success(map[Field('f', 6) := Int(f1 + f2)])
  }

  /** `line_f7`. */
  function LineF7(deps: Record): AssignerResult<Field>
    requires HasInt(deps, Field('f', 2)) && HasInt(deps, Field('f', 3))
  {
    var f2, f3 := IntAt(deps, Field('f', 2)), IntAt(deps, Field('f', 3));
    Success(map[Field('f', 7) := Int(f2 * f3)])
  }

  /** `line_f8`. */
  function LineF8(deps: Record): AssignerResult<Field>
    requires HasInt(deps, Field('f', 4)) && HasInt(deps, Field('f', 5))
  {
    var f4, f5 := IntAt(deps, Field('f', 4)), IntAt(deps, Field('f', 5));
    Success(map[Field('f', 8) := Int(f4 - f5)])
  }

  /** `line_f9`. */
  function LineF9(deps: Record): AssignerResult<Field>
    requires HasInt(deps, Field('f', 6)) && HasInt(deps, Field('f', 7))
  {
    var f6, f7 := IntAt(deps, Field('f', 6)), IntAt(deps, Field('f', 7));
    Success(map[Field('f', 9) := Int(f6 * f7)])
  }

  /** `line_f10`. */
  function LineF10(deps: Record): AssignerResult<Field>
    requires HasInt(deps, Field('f', 9)) && HasInt(deps, Field('f', 8))
  {
    var f9, f8 := IntAt(deps, Field('f', 9)), IntAt(deps, Field('f', 8));
    Success(map[Field('f', 10) := Int(f9 + f8)])
  }

  /** `line_f11`. */
  function LineF11(deps: Record): AssignerResult<Field>
    requires HasInt(deps, Field('f', 10))
  {
    var f10 := IntAt(deps, Field('f', 10));
    Success(map[Field('f', 11) := Int(f10 * 2)])
  }

  /** `line_f12`. */
  function LineF12(deps: Record): AssignerResult<Field>
    requires HasInt(deps, Field('f', 11)) && HasInt(deps, Field('f', 6))
  {
    var f11, f6 := IntAt(deps, Field('f', 11)), IntAt(deps, Field('f', 6));
    Success(map[Field('f', 12) := Int(f11 + f6)])
  }

  /** `line_f13`. */
  function LineF13(deps: Record): AssignerResult<Field>
    requires HasInt(deps, Field('f', 12)) && HasInt(deps, Field('f', 7))
  {
    var f12, f7 := IntAt(deps, Field('f', 12)), IntAt(deps, Field('f', 7));
    Success(map[Field('f', 13) := Int(f12 + f7)])
  }

  /** `line_f14`. */
  function LineF14(deps: Record): AssignerResult<Field>
    requires HasInt(deps, Field('f', 13)) && HasInt(deps, Field('f', 8))
  {
    var f13, f8 := IntAt(deps, Field('f', 13)), IntAt(deps, Field('f', 8));
    Success(map[Field('f', 14) := Int(f13 + f8)])
  }

  /** `line_f15`. */
  function LineF15(deps: Record): AssignerResult<Field>
    requires HasInt(deps, Field('f', 14)) && HasInt(deps, Field('f', 1))
  {
    var f14, f1 := IntAt(deps, Field('f', 14)), IntAt(deps, Field('f', 1));
    Success(map[Field('f', 15) := Int(f14 - f1)])
  }

  /** `line_g_stage1a`. */
  function LineGStage1a(deps: Record): AssignerResult<Field>
    requires HasInt(deps, Field('g', 1)) && HasInt(deps, Field('g', 2))
  {
    var g1, g2 := IntAt(deps, Field('g', 1)), IntAt(deps, Field('g', 2));
    Success(map[Field('g', 5) := Int(g1 + g2), Field('g', 6) := Int(g1 * g2)])
  }

  /** `line_g_stage1b`. */
  function LineGStage1b(deps: Record): AssignerResult<Field>
    requires HasInt(deps, Field('g', 2)) && HasInt(deps, Field('g', 3))
  {
    var g2, g3 := IntAt(deps, Field('g', 2)), IntAt(deps, Field('g', 3));
    Success(map[Field('g', 7) := Int(g2 + g3), Field('g', 8) := Int(g2 * g3)])
  }

  /** `line_g_stage1c`. */
  function LineGStage1c(deps: Record): AssignerResult<Field>
    requires HasInt(deps, Field('g', 3)) && HasInt(deps, Field('g', 4))
  {
    var g3, g4 := IntAt(deps, Field('g', 3)), IntAt(deps, Field('g', 4));
    Success(map[Field('g', 9) := Int(g3 + g4), Field('g', 10) := Int(g3 * g4)])
  }

  /** `line_g_stage2a`. */
  function LineGStage2a(deps: Record): AssignerResult<Field>
    requires HasInt(deps, Field('g', 5)) && HasInt(deps, Field('g', 7)) && HasInt(deps, Field('g', 9))
  {
    var g5, g7, g9 := IntAt(deps, Field('g', 5)), IntAt(deps, Field('g', 7)), IntAt(deps, Field('g', 9));
    Success(map[Field('g', 11) := Int(g5 + g7 + g9), Field('g', 12) := Int(g5 * g7 + g9)])
  }

  /** `line_g_stage2b`. */
  function LineGStage2b(deps: Record): AssignerResult<Field>
    requires HasInt(deps, Field('g', 6)) && HasInt(deps, Field('g', 8)) && HasInt(deps, Field('g', 10))
  {
    var g6, g8, g10 := IntAt(deps, Field('g', 6)), IntAt(deps, Field('g', 8)), IntAt(deps, Field('g', 10));
    Success(map[Field('g', 13) := Int(g6 + g8 + g10), Field('g', 14) := Int(g6 * g8 + g10)])
  }

  /** `line_g_stage3`. */
  function LineGStage3(deps: Record): AssignerResult<Field>
    requires HasInt(deps, Field('g', 11)) && HasInt(deps, Field('g', 12))
    requires HasInt(deps, Field('g', 13)) && HasInt(deps, Field('g', 14))
  {
    var g11, g12 := IntAt(deps, Field('g', 11)), IntAt(deps, Field('g', 12));
    var g13, g14 := IntAt(deps, Field('g', 13)), IntAt(deps, Field('g', 14));
    Success(map[Field('g', 15) := Int(g11 + g13),
                Field('g', 16) := Int(g12 + g14),
                Field('g', 17) := Int(g11 + g12 + g13 + g14)])
  }

  /** `line_g_stage4`. */
  function LineGStage4(deps: Record): AssignerResult<Field>
    requires HasInt(deps, Field('g', 15)) && HasInt(deps, Field('g', 16))
    requires HasInt(deps, Field('g', 17))
  {
    var g15, g16, g17 := IntAt(deps, Field('g', 15)), IntAt(deps, Field('g', 16)), IntAt(deps, Field('g', 17));
    Success(map[Field('g', 18) := Int(g15 + g16), Field('g', 19) := Int(g17 - g15)])
  }

  /** `line_g_stage5`. */
  function LineGStage5(deps: Record): AssignerResult<Field>
    requires HasInt(deps, Field('g', 18)) && HasInt(deps, Field('g', 19))
  {
    var g18, g19 := IntAt(deps, Field('g', 18)), IntAt(deps, Field('g', 19));
    Success(map[Field('g', 20) := Int(g18 + g19)])
  }

  /** `line_h_piece_builder`: validates and clamps the delay in h6, then formats three pieces. */
  function LineHPieceBuilder(deps: Record): AssignerResult<Field>
    requires Field('h', 1) in deps && Field('h', 2) in deps && Field('h', 3) in deps
    requires Field('h', 4) in deps && Field('h', 5) in deps && DelayReadable(deps, Field('h', 6))
  {
    var h1, h2, h3 := TextAt(deps, Field('h', 1)), TextAt(deps, Field('h', 2)), TextAt(deps, Field('h', 3));
    var h4, h5 := TextAt(deps, Field('h', 4)), TextAt(deps, Field('h', 5));
    match ClampDelay(DelayAt(deps, Field('h', 6)), 5)
    case Rejected => Failure("h6 (piece builder delay seconds) must be >= 0.")
    case Sleep(_) =>
      Success(map[Field('h', 9) := Str(h1 + "-" + h2),
                  Field('h', 10) := Str(Upper(h2) + "_" + h3),
                  Field('h', 11) := Str(h4 + ":" + h5)])
  }

  /** `line_h_joiner`: validates and clamps the delay in h7, then joins the pieces. */
  function LineHJoiner(deps: Record): AssignerResult<Field>
    requires Field('h', 9) in deps && Field('h', 10) in deps && Field('h', 11) in deps
    requires DelayReadable(deps, Field('h', 7))
  {
    var h9, h10, h11 := TextAt(deps, Field('h', 9)), TextAt(deps, Field('h', 10)), TextAt(deps, Field('h', 11));
    match ClampDelay(DelayAt(deps, Field('h', 7)), 5)
    case Rejected => Failure("h7 (joiner delay seconds) must be >= 0.")
    case Sleep(_) =>
      var h12 := h9 + "|" + h10;
      var h13 := "[" + h12 + "]<" + h11 + ">";
      Success(map[Field('h', 12) := Str(h12), Field('h', 13) := Str(h13)])
  }

  /** `line_h_splitter`: validates and clamps the delay in h8, then cuts h13 into three
      slices of five characters and the rest. */
  function LineHSplitter(deps: Record): AssignerResult<Field>
    requires Field('h', 13) in deps && DelayReadable(deps, Field('h', 8))
  {
    var h13 := TextAt(deps, Field('h', 13));
    match ClampDelay(DelayAt(deps, Field('h', 8)), 5)
    case Rejected => Failure("h8 (splitter delay seconds) must be >= 0.")
    case Sleep(_) =>
      Success(map[Field('h', 14) := Str(Slice(h13, 0, 5)),
                  Field('h', 15) := Str(Slice(h13, 5, 10)),
                  Field('h', 16) := Str(Slice(h13, 10, 15)),
                  Field('h', 17) := Str(SliceFrom(h13, 15))])
  }

  /** `line_h_recombine`: glues the four slices back together and reports the length. */
  function LineHRecombine(deps: Record): AssignerResult<Field>
    requires Field('h', 14) in deps && Field('h', 15) in deps && Field('h', 16) in deps
    requires Field('h', 17) in deps
  {
    var h14, h15 := TextAt(deps, Field('h', 14)), TextAt(deps, Field('h', 15));
    var h16, h17 := TextAt(deps, Field('h', 16)), TextAt(deps, Field('h', 17));
    var h18 := h14 + h15 + h16 + h17;
    Success(map[Field('h', 18) := Str(h18), Field('h', 19) := Str("len=" + NatToDecimal(|h18|))])
  }

  /** Calling a handler of family a, c, d or e (the chains and the two auto-first sums). */
  function RunChains(h: Assigner, deps: Record): AssignerResult<Field>
    requires h in {A3, A4, A5, CAutoFirst, D3, D4, D5, EAutoFirstMissingDefaults} && Binds(h, deps)
  {
    match h
    case A3 => LineA3(deps)
    case A4 => LineA4(deps)
    case A5 => LineA5(deps)
    case CAutoFirst => LineCAutoFirst(deps)
    case D3 => LineD3(deps)
    case D4 => LineD4(deps)
    case D5 => LineD5(deps)
    case EAutoFirstMissingDefaults => LineEAutoFirstMissingDefaults(deps)
    case _ => assert false; Failure("")
  }

  /** Calling a handler of family b; `clock` supplies the timestamps. */
  function RunB(h: Assigner, deps: Record, clock: Clock): AssignerResult<Field>
    requires h in {B5Manual, BSlowAuto, BDownstreamManual, BDownstreamAuto} && Binds(h, deps)
  {
    match h
    case B5Manual => LineB5Manual(deps)
    case BSlowAuto => LineBSlowAuto(deps, clock)
    case BDownstreamManual => LineBDownstreamManual(deps, clock)
    case BDownstreamAuto => LineBDownstreamAuto(deps, clock)
    case _ => assert false; Failure("")
  }

  /** Calling a handler of family f. */
  function RunF(h: Assigner, deps: Record): AssignerResult<Field>
    requires h in {F6, F7, F8, F9, F10, F11, F12, F13, F14, F15} && Binds(h, deps)
  {
    match h
    case F6 => LineF6(deps)
    case F7 => LineF7(deps)
    case F8 => LineF8(deps)
    case F9 => LineF9(deps)
    case F10 => LineF10(deps)
    case F11 => LineF11(deps)
    case F12 => LineF12(deps)
    case F13 => LineF13(deps)
    case F14 => LineF14(deps)
    case F15 => LineF15(deps)
    case _ => assert false; Failure("")
  }

  /** Calling a handler of family g. */
  function RunG(h: Assigner, deps: Record): AssignerResult<Field>
    requires h in {GStage1a, GStage1b, GStage1c, GStage2a, GStage2b, GStage3, GStage4, GStage5} && Binds(h, deps)
  {
    match h
    case GStage1a => LineGStage1a(deps)
    case GStage1b => LineGStage1b(deps)
    case GStage1c => LineGStage1c(deps)
    case GStage2a => LineGStage2a(deps)
    case GStage2b => LineGStage2b(deps)
    case GStage3 => LineGStage3(deps)
    case GStage4 => LineGStage4(deps)
    case GStage5 => LineGStage5(deps)
    case _ => assert false; Failure("")
  }

  /** Calling a handler of family h. */
  function RunH(h: Assigner, deps: Record): AssignerResult<Field>
    requires h in {HPieceBuilder, HJoiner, HSplitter, HRecombine} && Binds(h, deps)
  {
    match h
    case HPieceBuilder => LineHPieceBuilder(deps)
    case HJoiner => LineHJoiner(deps)
    case HSplitter => LineHSplitter(deps)
    case HRecombine => LineHRecombine(deps)
    case _ => assert false; Failure("")
  }

  // ---------------------------------------------------------------------------
  // Handlers against their declarations
  // ---------------------------------------------------------------------------

  /** Every handler of families a, c, d and e succeeds and writes exactly the fields it declares as assigned. */
  lemma OutputsMatchChains(h: Assigner, deps: Record)
    requires h in {A3, A4, A5, CAutoFirst, D3, D4, D5, EAutoFirstMissingDefaults}
    requires Binds(h, deps)
    ensures RunChains(h, deps).Success?
    ensures forall k :: k in RunChains(h, deps).outputs <==>
      k.family == Declared(h).family && k.stage in Declared(h).assignedStages
  {
    // One case per handler: the split keeps each proof obligation small.
    match h
    case A3 =>
    case A4 =>
    case A5 =>
    case CAutoFirst =>
    case D3 =>
    case D4 =>
    case D5 =>
    case EAutoFirstMissingDefaults =>
    case _ =>
  }

  /** A successful call of a handler of family b writes exactly the fields it declares as assigned. */
  lemma OutputsMatchB(h: Assigner, deps: Record, clock: Clock)
    requires h in {B5Manual, BSlowAuto, BDownstreamManual, BDownstreamAuto}
    requires Binds(h, deps)
    ensures RunB(h, deps, clock).Success? ==> forall k :: k in RunB(h, deps, clock).outputs <==>
      k.family == Declared(h).family && k.stage in Declared(h).assignedStages
  {
    // One case per handler: the split keeps each proof obligation small.
    match h
    case B5Manual =>
    case BSlowAuto =>
    case BDownstreamManual =>
    case BDownstreamAuto =>
    case _ =>
  }

  /** Every handler of family f succeeds and writes exactly the fields it declares as assigned. */
  lemma OutputsMatchF(h: Assigner, deps: Record)
    requires h in {F6, F7, F8, F9, F10, F11, F12, F13, F14, F15}
    requires Binds(h, deps)
    ensures RunF(h, deps).Success?
    ensures forall k :: k in RunF(h, deps).outputs <==>
      k.family == Declared(h).family && k.stage in Declared(h).assignedStages
  {
    // One case per handler: the split keeps each proof obligation small.
    match h
    case F6 =>
    case F7 =>
    case F8 =>
    case F9 =>
    case F10 =>
    case F11 =>
    case F12 =>
    case F13 =>
    case F14 =>
    case F15 =>
    case _ =>
  }

  /** Every handler of family g succeeds and writes exactly the fields it declares as assigned. */
  lemma OutputsMatchG(h: Assigner, deps: Record)
    requires h in {GStage1a, GStage1b, GStage1c, GStage2a, GStage2b, GStage3, GStage4, GStage5}
    requires Binds(h, deps)
    ensures RunG(h, deps).Success?
    ensures forall k :: k in RunG(h, deps).outputs <==>
      k.family == Declared(h).family && k.stage in Declared(h).assignedStages
  {
    // One case per handler: the split keeps each proof obligation small.
    match h
    case GStage1a =>
    case GStage1b =>
    case GStage1c =>
    case GStage2a =>
    case GStage2b =>
    case GStage3 =>
    case GStage4 =>
    case GStage5 =>
    case _ =>
  }

  /** A successful call of a handler of family h writes exactly the fields it declares as assigned. */
  lemma OutputsMatchH(h: Assigner, deps: Record)
    requires h in {HPieceBuilder, HJoiner, HSplitter, HRecombine}
    requires Binds(h, deps)
    ensures RunH(h, deps).Success? ==> forall k :: k in RunH(h, deps).outputs <==>
      k.family == Declared(h).family && k.stage in Declared(h).assignedStages
  {
    // One case per handler: the split keeps each proof obligation small.
    match h
    case HPieceBuilder =>
    case HJoiner =>
    case HSplitter =>
    case HRecombine =>
    case _ =>
  }

  /** A result as the framework sees it, keyed by field name. */
  function Named(r: AssignerResult<Field>): AssignerResult<string> {
    match r
    case Success(outputs) =>
      NamesInjective();
      Success(map k | k in outputs :: Name(k) := outputs[k])
    case Failure(message) => Failure(message)
  }

  lemma NamesInjective()
    ensures forall f1: Field, f2: Field :: Name(f1) == Name(f2) ==> f1 == f2
  {
    forall f1: Field, f2: Field | Name(f1) == Name(f2)
      ensures f1 == f2
    {
      NameInjective(f1, f2);
    }
  }

  /** A result whose fields are exactly the declared assigned stages of `h` carries,
      by name, exactly the field names of `h`'s decorator. */
  lemma DeclaredNames(h: Assigner, r: AssignerResult<Field>)
    requires r.Success? ==> forall k :: k in r.outputs <==>
      k.family == Declared(h).family && k.stage in Declared(h).assignedStages
    ensures OutputsMatch(Declaration(h), Named(r))
  {
    if r.Success? {
      var d := Declared(h);
      NamesMembers(d.family, d.assignedStages);
      var named := Named(r).outputs.Keys;
      var declared := set f | f in Declaration(h).assignedFields;
      forall x | x in named
        ensures x in declared
      {
        var k :| k in r.outputs && x == Name(k);
        assert k == Field(d.family, k.stage);
      }
      forall x | x in declared
        ensures x in named
      {
        var n :| n in d.assignedStages && x == Name(Field(d.family, n));
        assert Field(d.family, n) in r.outputs;
      }
    }
  }

  /** Read by name, a result of a handler of families a, c, d and e agrees with its decorator. */
  lemma NamedOutputsChains(h: Assigner, deps: Record)
    requires h in {A3, A4, A5, CAutoFirst, D3, D4, D5, EAutoFirstMissingDefaults}
    requires Binds(h, deps)
    ensures OutputsMatch(Declaration(h), Named(RunChains(h, deps)))
  {
    OutputsMatchChains(h, deps);
    DeclaredNames(h, RunChains(h, deps));
  }

  /** Read by name, a result of a handler of family b agrees with its decorator. */
  lemma NamedOutputsB(h: Assigner, deps: Record, clock: Clock)
    requires h in {B5Manual, BSlowAuto, BDownstreamManual, BDownstreamAuto}
    requires Binds(h, deps)
    ensures OutputsMatch(Declaration(h), Named(RunB(h, deps, clock)))
  {
    OutputsMatchB(h, deps, clock);
    DeclaredNames(h, RunB(h, deps, clock));
  }

  /** Read by name, a result of a handler of family f agrees with its decorator. */
  lemma NamedOutputsF(h: Assigner, deps: Record)
    requires h in {F6, F7, F8, F9, F10, F11, F12, F13, F14, F15}
    requires Binds(h, deps)
    ensures OutputsMatch(Declaration(h), Named(RunF(h, deps)))
  {
    OutputsMatchF(h, deps);
    DeclaredNames(h, RunF(h, deps));
  }

  /** Read by name, a result of a handler of family g agrees with its decorator. */
  lemma NamedOutputsG(h: Assigner, deps: Record)
    requires h in {GStage1a, GStage1b, GStage1c, GStage2a, GStage2b, GStage3, GStage4, GStage5}
    requires Binds(h, deps)
    ensures OutputsMatch(Declaration(h), Named(RunG(h, deps)))
  {
    OutputsMatchG(h, deps);
    DeclaredNames(h, RunG(h, deps));
  }

  /** Read by name, a result of a handler of family h agrees with its decorator. */
  lemma NamedOutputsH(h: Assigner, deps: Record)
    requires h in {HPieceBuilder, HJoiner, HSplitter, HRecombine}
    requires Binds(h, deps)
    ensures OutputsMatch(Declaration(h), Named(RunH(h, deps)))
  {
    OutputsMatchH(h, deps);
    DeclaredNames(h, RunH(h, deps));
  }

  // ---------------------------------------------------------------------------
  // Delays: the exact failure condition and the bounds
  // ---------------------------------------------------------------------------

  /** The delay a handler with a rule validates: rejected, or the seconds it sleeps. */
  function EffectiveDelay(h: Assigner, deps: Record): Delay
    requires Rule(h).Some? && DelayReadable(deps, Rule(h).value.field)
  {
    ClampDelay(DelayAt(deps, Rule(h).value.field), Rule(h).value.cap)
  }

  /** A handler of family b fails exactly when it has a delay rule (only
      `line_b_slow_auto` does) and b4 holds a negative integer, and then with the
      rule's message and no fields. */
  lemma FailsOnlyOnNegativeDelayB(h: Assigner, deps: Record, clock: Clock)
    requires h in {B5Manual, BSlowAuto, BDownstreamManual, BDownstreamAuto}
    requires Binds(h, deps)
    ensures Rule(h).Some? ==> DelayReadable(deps, Rule(h).value.field)
    ensures RunB(h, deps, clock).Failure? <==> Rule(h).Some? && DelayAt(deps, Rule(h).value.field) < 0
    ensures RunB(h, deps, clock).Failure? ==> RunB(h, deps, clock).message == Rule(h).value.message
  {
    // One case per handler: the split keeps each proof obligation small.
    match h
    case B5Manual =>
    case BSlowAuto =>
    case BDownstreamManual =>
    case BDownstreamAuto =>
    case _ =>
  }

  /** A handler of family h fails exactly when it has a delay rule (all but the
      recombiner do) and its delay field holds a negative integer, and then with
      the rule's message and no fields. */
  lemma FailsOnlyOnNegativeDelayH(h: Assigner, deps: Record)
    requires h in {HPieceBuilder, HJoiner, HSplitter, HRecombine}
    requires Binds(h, deps)
    ensures Rule(h).Some? ==> DelayReadable(deps, Rule(h).value.field)
    ensures RunH(h, deps).Failure? <==> Rule(h).Some? && DelayAt(deps, Rule(h).value.field) < 0
    ensures RunH(h, deps).Failure? ==> RunH(h, deps).message == Rule(h).value.message
  {
    // One case per handler: the split keeps each proof obligation small.
    match h
    case HPieceBuilder =>
    case HJoiner =>
    case HSplitter =>
    case HRecombine =>
    case _ =>
  }

  /** A missing or falsy delay counts as zero; a delay that is not rejected lies in
      [0, 60] for b4 and in [0, 5] for h6, h7 and h8. */
  lemma DelayBounds(h: Assigner, deps: Record)
    requires Binds(h, deps) && Rule(h).Some?
    ensures DelayReadable(deps, Rule(h).value.field)
    ensures var f := Rule(h).value.field;
      f !in deps || Falsy(deps[f]) ==> EffectiveDelay(h, deps) == Sleep(0)
    ensures EffectiveDelay(h, deps).Rejected? <==> DelayAt(deps, Rule(h).value.field) < 0
    ensures EffectiveDelay(h, deps).Sleep? ==> EffectiveDelay(h, deps).seconds <= (if h == BSlowAuto then 60 else 5)
  {
  }

  /** The four handlers with a delay rule validate exactly the delay `EffectiveDelay`
      computes from the rule: each succeeds iff that delay is not rejected. */
  lemma HandlersApplyRule(h: Assigner, deps: Record, clock: Clock)
    requires h in {BSlowAuto, HPieceBuilder, HJoiner, HSplitter}
    requires Binds(h, deps)
    ensures Rule(h).Some? && DelayReadable(deps, Rule(h).value.field)
    ensures h == BSlowAuto ==> (RunB(h, deps, clock).Success? <==> EffectiveDelay(h, deps).Sleep?)
    ensures h != BSlowAuto ==> (RunH(h, deps).Success? <==> EffectiveDelay(h, deps).Sleep?)
  {
    // One case per handler: the split keeps each proof obligation small.
    match h
    case BSlowAuto =>
    case HPieceBuilder =>
    case HJoiner =>
    case HSplitter =>
  }

  // ---------------------------------------------------------------------------
  // Pipelines
  // ---------------------------------------------------------------------------

  /** A `dependent_fields` mapping of integer fields, as the caller of a handler builds it. */
  function Ints1(k1: Field, v1: int): Record
  {
    map[k1 := Int(v1)]
  }

  function Ints2(k1: Field, v1: int, k2: Field, v2: int): Record
  {
    map[k1 := Int(v1), k2 := Int(v2)]
  }

  function Ints3(k1: Field, v1: int, k2: Field, v2: int, k3: Field, v3: int): Record
  {
    map[k1 := Int(v1), k2 := Int(v2), k3 := Int(v3)]
  }

  /** The integer a successful result assigns to `k` (0 when it assigns none). */
  function Out(r: AssignerResult<Field>, k: Field): int {
    if r.Success? && HasInt(r.outputs, k) then r.outputs[k].i else 0
  }

  /** The a-chain, each handler called with the field its predecessor assigned:
      a3 = a1 + a2, a4 = 3·a3 and a5 = a4·a4, so a5 = 9·(a1 + a2)², never negative. */
  lemma AChain(a1: int, a2: int)
    ensures var a3 := Out(LineA3(Ints2(Field('a', 1), a1, Field('a', 2), a2)), Field('a', 3));
      var a4 := Out(LineA4(Ints1(Field('a', 3), a3)), Field('a', 4));
      var a5 := Out(LineA5(Ints1(Field('a', 4), a4)), Field('a', 5));
      a5 == 9 * (a1 + a2) * (a1 + a2) && a5 >= 0
  {
  }

  /** With a1 = 2 and a2 = 3 the chain ends at a5 = 225. */
  lemma AChainExample()
    ensures var a3 := Out(LineA3(Ints2(Field('a', 1), 2, Field('a', 2), 3)), Field('a', 3));
      var a4 := Out(LineA4(Ints1(Field('a', 3), a3)), Field('a', 4));
      Out(LineA5(Ints1(Field('a', 4), a4)), Field('a', 5)) == 225
  {
    AChain(2, 3);
  }

  /** The d-chain computes what the a-chain computes: d5 = 9·(d1 + d2)². */
  lemma DChain(d1: int, d2: int)
    ensures var d3 := Out(LineD3(Ints2(Field('d', 1), d1, Field('d', 2), d2)), Field('d', 3));
      var d4 := Out(LineD4(Ints1(Field('d', 3), d3)), Field('d', 4));
      var d5 := Out(LineD5(Ints1(Field('d', 4), d4)), Field('d', 5));
      var a3 := Out(LineA3(Ints2(Field('a', 1), d1, Field('a', 2), d2)), Field('a', 3));
      var a4 := Out(LineA4(Ints1(Field('a', 3), a3)), Field('a', 4));
      d5 == Out(LineA5(Ints1(Field('a', 4), a4)), Field('a', 5)) == 9 * (d1 + d2) * (d1 + d2)
  {
  }

  /** The two consumers of b5 and b6, whichever values they hold: b9 = b5 + b6 and
      b12 = b5·b6, each stamped with the clock readings taken around the computation. */
  lemma BConsumers(b5: int, b6: int, clock: Clock)
    ensures var deps := Ints2(Field('b', 5), b5, Field('b', 6), b6);
      var manual, auto := LineBDownstreamManual(deps, clock), LineBDownstreamAuto(deps, clock);
      && manual == Success(map[Field('b', 9) := Int(b5 + b6), Field('b', 10) := Str(clock.startedAt),
                               Field('b', 11) := Str(clock.finishedAt)])
      && auto == Success(map[Field('b', 12) := Int(b5 * b6), Field('b', 13) := Str(clock.startedAt),
                             Field('b', 14) := Str(clock.finishedAt)])
  {
  }

  /** The b-pipeline with a delay that is not rejected: b5 = b1·b2 + b3, b6 = 2·b5,
      b9 = b5 + b6 = 3·b5 and b12 = b5·b6 = 2·b5², and the timestamps are the clock's.
      `delay` is what the record holds at b4, if anything. */
  lemma BPipeline(b1: int, b2: int, b3: int, delay: Record, clock: Clock)
    requires DelayReadable(delay, Field('b', 4)) && DelayAt(delay, Field('b', 4)) >= 0
    ensures var b5 := Out(LineB5Manual(Ints3(Field('b', 1), b1, Field('b', 2), b2, Field('b', 3), b3)), Field('b', 5));
      var slowDeps := delay[Field('b', 5) := Int(b5)];
      DelayReadable(slowDeps, Field('b', 4)) && LineBSlowAuto(slowDeps, clock).Success? &&
      var slow := LineBSlowAuto(slowDeps, clock).outputs;
      HasInt(slow, Field('b', 6)) &&
      var b6 := Out(LineBSlowAuto(slowDeps, clock), Field('b', 6));
      var b9 := Out(LineBDownstreamManual(Ints2(Field('b', 5), b5, Field('b', 6), b6), clock), Field('b', 9));
      var b12 := Out(LineBDownstreamAuto(Ints2(Field('b', 5), b5, Field('b', 6), b6), clock), Field('b', 12));
      && b5 == b1 * b2 + b3
      && b6 == 2 * b5
      && slow[Field('b', 7)] == Str(clock.startedAt) && slow[Field('b', 8)] == Str(clock.finishedAt)
      && b9 == 3 * b5
      && b12 == 2 * b5 * b5 >= 0
  {
    var b5 := b1 * b2 + b3;
    var slowDeps := delay[Field('b', 5) := Int(b5)];
    assert DelayAt(slowDeps, Field('b', 4)) == DelayAt(delay, Field('b', 4));
  }

  /** The two auto_first sums and the first step of the a-chain agree: c3 = e3 = a3 = x + y. */
  lemma SumsAgree(x: int, y: int)
    ensures var c3 := Out(LineCAutoFirst(Ints2(Field('c', 1), x, Field('c', 2), y)), Field('c', 3));
      var e3 := Out(LineEAutoFirstMissingDefaults(Ints2(Field('e', 1), x, Field('e', 2), y)), Field('e', 3));
      var a3 := Out(LineA3(Ints2(Field('a', 1), x, Field('a', 2), y)), Field('a', 3));
      c3 == e3 == a3 == x + y
  {
  }

  /** Stages 1 and 2 of the g-diamond: each of g1..g4 feeds two stage-1 handlers, whose
      sums meet in g11, g12 and whose products meet in g13, g14. */
  lemma GFansOut(g1: int, g2: int, g3: int, g4: int,
                 g5: int, g6: int, g7: int, g8: int, g9: int, g10: int)
    requires g5 == Out(LineGStage1a(Ints2(Field('g', 1), g1, Field('g', 2), g2)), Field('g', 5))
    requires g6 == Out(LineGStage1a(Ints2(Field('g', 1), g1, Field('g', 2), g2)), Field('g', 6))
    requires g7 == Out(LineGStage1b(Ints2(Field('g', 2), g2, Field('g', 3), g3)), Field('g', 7))
    requires g8 == Out(LineGStage1b(Ints2(Field('g', 2), g2, Field('g', 3), g3)), Field('g', 8))
    requires g9 == Out(LineGStage1c(Ints2(Field('g', 3), g3, Field('g', 4), g4)), Field('g', 9))
    requires g10 == Out(LineGStage1c(Ints2(Field('g', 3), g3, Field('g', 4), g4)), Field('g', 10))
    ensures var stage2a := LineGStage2a(Ints3(Field('g', 5), g5, Field('g', 7), g7, Field('g', 9), g9));
      var stage2b := LineGStage2b(Ints3(Field('g', 6), g6, Field('g', 8), g8, Field('g', 10), g10));
      && Out(stage2a, Field('g', 11)) == (g1 + g2) + (g2 + g3) + (g3 + g4)
      && Out(stage2a, Field('g', 12)) == (g1 + g2) * (g2 + g3) + (g3 + g4)
      && Out(stage2b, Field('g', 13)) == g1 * g2 + g2 * g3 + g3 * g4
      && Out(stage2b, Field('g', 14)) == (g1 * g2) * (g2 * g3) + g3 * g4
  {
  }

  /** Stages 3 to 5 of the g-diamond: g15 + g16 = g17, hence g18 = g17, g19 = g16
      and g20 = g16 + g17, whatever stage 2 produced. */
  lemma GConverges(g11: int, g12: int, g13: int, g14: int)
    ensures var stage3 := LineGStage3(map[Field('g', 11) := Int(g11), Field('g', 12) := Int(g12),
                                          Field('g', 13) := Int(g13), Field('g', 14) := Int(g14)]);
      var g15, g16, g17 := Out(stage3, Field('g', 15)), Out(stage3, Field('g', 16)), Out(stage3, Field('g', 17));
      var stage4 := LineGStage4(Ints3(Field('g', 15), g15, Field('g', 16), g16, Field('g', 17), g17));
      var g18, g19 := Out(stage4, Field('g', 18)), Out(stage4, Field('g', 19));
      var g20 := Out(LineGStage5(Ints2(Field('g', 18), g18, Field('g', 19), g19)), Field('g', 20));
      g15 + g16 == g17 && g18 == g17 && g19 == g16 && g20 == g16 + g17
  {
  }

  /** The f-pipeline in closed form: when every stage is called with the values its
      predecessors assigned, f15 = 2·(f1 + f2)·f2·f3 + 3·(f4 − f5) + f2 + f2·f3. */
  lemma FPipeline(f1: int, f2: int, f3: int, f4: int, f5: int,
                  f6: int, f7: int, f8: int, f9: int, f10: int,
                  f11: int, f12: int, f13: int, f14: int, f15: int)
    requires f6 == Out(LineF6(Ints2(Field('f', 1), f1, Field('f', 2), f2)), Field('f', 6))
    requires f7 == Out(LineF7(Ints2(Field('f', 2), f2, Field('f', 3), f3)), Field('f', 7))
    requires f8 == Out(LineF8(Ints2(Field('f', 4), f4, Field('f', 5), f5)), Field('f', 8))
    requires f9 == Out(LineF9(Ints2(Field('f', 6), f6, Field('f', 7), f7)), Field('f', 9))
    requires f10 == Out(LineF10(Ints2(Field('f', 9), f9, Field('f', 8), f8)), Field('f', 10))
    requires f11 == Out(LineF11(Ints1(Field('f', 10), f10)), Field('f', 11))
    requires f12 == Out(LineF12(Ints2(Field('f', 11), f11, Field('f', 6), f6)), Field('f', 12))
    requires f13 == Out(LineF13(Ints2(Field('f', 12), f12, Field('f', 7), f7)), Field('f', 13))
    requires f14 == Out(LineF14(Ints2(Field('f', 13), f13, Field('f', 8), f8)), Field('f', 14))
    requires f15 == Out(LineF15(Ints2(Field('f', 14), f14, Field('f', 1), f1)), Field('f', 15))
    ensures f15 == 2 * (f1 + f2) * f2 * f3 + 3 * (f4 - f5) + f2 + f2 * f3
  {
  }

  /** The h-joiner's output in terms of the h-inputs, both delays accepted:
      h13 = "[" + h1 + "-" + h2 + "|" + upper(h2) + "_" + h3 + "]<" + h4 + ":" + h5 + ">"
      (grouped below as the handlers build it), eight characters longer than its parts
      together. `delays` is what the record holds at h6 and h7, if anything. */
  lemma HJoinFormat(h1: string, h2: string, h3: string, h4: string, h5: string, delays: Record)
    requires DelayReadable(delays, Field('h', 6)) && DelayAt(delays, Field('h', 6)) >= 0
    requires DelayReadable(delays, Field('h', 7)) && DelayAt(delays, Field('h', 7)) >= 0
    ensures var inputs := delays[Field('h', 1) := Str(h1)][Field('h', 2) := Str(h2)][Field('h', 3) := Str(h3)]
                                [Field('h', 4) := Str(h4)][Field('h', 5) := Str(h5)];
      DelayReadable(inputs, Field('h', 6)) && LineHPieceBuilder(inputs).Success? &&
      var pieces := LineHPieceBuilder(inputs).outputs;
      var joinerDeps := delays + pieces;
      DelayReadable(joinerDeps, Field('h', 7)) && LineHJoiner(joinerDeps).Success? &&
      var joined := LineHJoiner(joinerDeps).outputs;
      var h12 := (h1 + "-" + h2) + "|" + (Upper(h2) + "_" + h3);
      var h13 := "[" + h12 + "]<" + (h4 + ":" + h5) + ">";
      && pieces == map[Field('h', 9) := Str(h1 + "-" + h2), Field('h', 10) := Str(Upper(h2) + "_" + h3),
                       Field('h', 11) := Str(h4 + ":" + h5)]
      && joined == map[Field('h', 12) := Str(h12), Field('h', 13) := Str(h13)]
      && |h13| == |h1| + 2 * |h2| + |h3| + |h4| + |h5| + 8
  {
    PiecesFormat(h1, h2, h3, h4, h5, delays);
    JoinerFormat(h1 + "-" + h2, Upper(h2) + "_" + h3, h4 + ":" + h5, delays);
  }

  lemma PiecesFormat(h1: string, h2: string, h3: string, h4: string, h5: string, delays: Record)
    requires DelayReadable(delays, Field('h', 6)) && DelayAt(delays, Field('h', 6)) >= 0
    ensures var inputs := delays[Field('h', 1) := Str(h1)][Field('h', 2) := Str(h2)][Field('h', 3) := Str(h3)]
                                [Field('h', 4) := Str(h4)][Field('h', 5) := Str(h5)];
      DelayReadable(inputs, Field('h', 6)) && LineHPieceBuilder(inputs)
        == Success(map[Field('h', 9) := Str(h1 + "-" + h2), Field('h', 10) := Str(Upper(h2) + "_" + h3),
                       Field('h', 11) := Str(h4 + ":" + h5)])
  {
    var inputs := delays[Field('h', 1) := Str(h1)][Field('h', 2) := Str(h2)][Field('h', 3) := Str(h3)]
                        [Field('h', 4) := Str(h4)][Field('h', 5) := Str(h5)];
    assert DelayAt(inputs, Field('h', 6)) == DelayAt(delays, Field('h', 6));
  }

  lemma JoinerFormat(h9: string, h10: string, h11: string, delays: Record)
    requires DelayReadable(delays, Field('h', 7)) && DelayAt(delays, Field('h', 7)) >= 0
    ensures var deps := delays + map[Field('h', 9) := Str(h9), Field('h', 10) := Str(h10), Field('h', 11) := Str(h11)];
      DelayReadable(deps, Field('h', 7)) && LineHJoiner(deps)
        == Success(map[Field('h', 12) := Str(h9 + "|" + h10), Field('h', 13) := Str("[" + (h9 + "|" + h10) + "]<" + h11 + ">")])
  {
    var deps := delays + map[Field('h', 9) := Str(h9), Field('h', 10) := Str(h10), Field('h', 11) := Str(h11)];
    assert DelayAt(deps, Field('h', 7)) == DelayAt(delays, Field('h', 7));
  }

  /** Splitting any text into h14..h17 and recombining them gives the text back as h18,
      and h19 is "len=" followed by its length in decimal; short texts give empty slices. */
  lemma SplitRecombine(store: Record)
    requires Field('h', 13) in store
    requires DelayReadable(store, Field('h', 8)) && DelayAt(store, Field('h', 8)) >= 0
    ensures var t := TextAt(store, Field('h', 13));
      LineHSplitter(store).Success? &&
      var pieces := LineHSplitter(store).outputs;
      var r := LineHRecombine(pieces);
      r == Success(map[Field('h', 18) := Str(t), Field('h', 19) := Str("len=" + NatToDecimal(|t|))])
  {
    var t := TextAt(store, Field('h', 13));
    SlicesJoin(t);
  }

  /** The slices h14, h15 and h16 hold five characters each while the text lasts, and
      h17 holds everything from the sixteenth character on. */
  lemma SplitterPieces(deps: Record)
    requires Field('h', 13) in deps
    requires DelayReadable(deps, Field('h', 8)) && DelayAt(deps, Field('h', 8)) >= 0
    ensures var t := TextAt(deps, Field('h', 13));
      LineHSplitter(deps).Success? &&
      var pieces := LineHSplitter(deps).outputs;
      && (forall k :: 0 <= k < 3 ==>
            Field('h', 14 + k) in pieces && pieces[Field('h', 14 + k)].Str?
            && |pieces[Field('h', 14 + k)].s| == Min(5, Max(0, |t| - 5 * k)))
      && pieces[Field('h', 17)] == Str(if |t| <= 15 then "" else t[15..])
  {
  }
}
