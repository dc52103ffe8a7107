# Multi-level assigner fixtures, modelled in Dafny

This project models the assigner handlers of two fixture protocols. An assigner
is a Python function decorated with `@assigner(assigned_fields=..., dependent_fields=...,
mode=...)`. It receives a mapping of its dependent fields. It answers with an
`AssignerResult`: either a success holding the assigned fields, or a failure
holding an error message.

- `MultiLevelAssigner` (multi_level_assigner.dfy) models all 34 `line_*` handlers of
  the multi-level protocol and its declaration table:
  - the integer chains a and d;
  - the slow b step that validates and clamps a delay, and its two consumers;
  - the auto_first sums c and e;
  - the converging f pipeline and the g diamond;
  - the h string pipeline, which builds pieces, joins them, slices the joined text
    into five-character slices and glues the slices back together.

  Each handler is a function `LineX` over a record keyed by `Field(family, stage)`.
  `Field('g', 15)` is the field the protocol calls "g15", and `NameInjective` shows
  that this naming loses nothing. `Declared`/`Declaration` give the decorator table.
  `RunChains`, `RunB`, `RunF`, `RunG` and `RunH` call a handler of the named
  families by its name. Every handler belongs to exactly one of them. `Named`
  rekeys a result by field name, as the framework sees it.
- `DownstreamAimd` (downstream_aimd.dfy) models `build_downstream_aimd` and
  `assemble_downstream_aimd` of the multi-hop AIMD protocol. The model reads each
  upstream text with `.get(...) or ""`, strips it, and places it in a fixed
  Markdown template. The whole template is then stripped.
- `Values` (values.dfy) holds field values (None, integers, strings), the result
  type, Python truthiness, and the `.get` / `int(...)` / `str(...)` readings that the
  handlers apply.
- `Text` (text.dfy) holds Python's `str.strip()` over the `str.isspace()`
  characters, an ASCII `str.upper()`, slicing with out-of-range bounds, and
  decimal rendering for `str(int)` and `len(...)`.
- `Declarations` (declarations.dfy) holds a declaration as data, and the agreement
  between a result and its declaration.

Three b handlers take two `_now_iso()` readings: `line_b_slow_auto` around its
sleep, and `line_b_downstream_manual` and `line_b_downstream_auto` around their
computation. The model takes these readings as a `Clock` parameter. The h
handlers sleep but take no readings. A sleep has no observable effect once its
delay has been validated and clamped.

When the second upstream text is empty, the outer `.strip()` in
`build_downstream_aimd` also removes the newline after the "## Upstream AIMD #2"
heading. The document then ends with that heading. `Document` and `StripTemplate`
state this case explicitly.

## Model

| member | source | states |
|---|---|---|
| `MultiLevelAssigner.NameInjective` | tests/test_multi_level_assigner/protocol/assigner.py:12-15 | two fields with the same name ("g15") are the same field, so a record keyed by `Field` is a mapping keyed by name |
| `MultiLevelAssigner.AssignedByProducer` | tests/test_multi_level_assigner/protocol/assigner.py:12-519 | every field a declaration assigns is attributed to that declaration's handler |
| `MultiLevelAssigner.UniqueProducers` | tests/test_multi_level_assigner/protocol/assigner.py:12-519 | no field name is assigned by two different handlers |
| `MultiLevelAssigner.ReadsEarlierChains` | tests/test_multi_level_assigner/protocol/assigner.py:12-181 | each declared dependent field of an a, b, c, d or e handler is an input or is assigned by a handler declared before it |
| `MultiLevelAssigner.ReadsEarlierF` | tests/test_multi_level_assigner/protocol/assigner.py:184-290 | the same for the declared dependent fields of the f handlers |
| `MultiLevelAssigner.ReadsEarlierG` | tests/test_multi_level_assigner/protocol/assigner.py:293-419 | the same for the declared dependent fields of the g handlers |
| `MultiLevelAssigner.ReadsEarlierH` | tests/test_multi_level_assigner/protocol/assigner.py:422-533 | the same for the declared dependent fields of the h handlers |
| `MultiLevelAssigner.DependsOnEarlier` | tests/test_multi_level_assigner/protocol/assigner.py:12-519 | for every handler, each dependent stage is an input or comes from an earlier declaration, so the file order is a topological order |
| `MultiLevelAssigner.ProducedEarlier` | tests/test_multi_level_assigner/protocol/assigner.py:12-519 | if a field is declared as dependent by one handler and assigned by another, the producer is declared before the consumer, so the dependency graph has no cycle |
| `MultiLevelAssigner.NoSelfDependency` | tests/test_multi_level_assigner/protocol/assigner.py:12-519 | no handler declares a field it assigns as one of its dependent fields |
| `MultiLevelAssigner.ClampDelay` | tests/test_multi_level_assigner/protocol/assigner.py:62-70 | a delay is rejected exactly when negative; otherwise it is at most the cap and the input, equal to the input within the cap and equal to the cap above it |
| `MultiLevelAssigner.OutputsMatchChains` | tests/test_multi_level_assigner/protocol/assigner.py:12-181 | an a, c, d or e handler always succeeds, and a field is among its outputs iff it is of the handler's family with a declared assigned stage |
| `MultiLevelAssigner.OutputsMatchB` | tests/test_multi_level_assigner/protocol/assigner.py:43-126 | a successful b handler writes a field iff the field is of family b with a declared assigned stage |
| `MultiLevelAssigner.OutputsMatchF` | tests/test_multi_level_assigner/protocol/assigner.py:184-290 | an f handler always succeeds, and a field is among its outputs iff it is of family f with a declared assigned stage |
| `MultiLevelAssigner.OutputsMatchG` | tests/test_multi_level_assigner/protocol/assigner.py:293-419 | a g handler always succeeds, and a field is among its outputs iff it is of family g with a declared assigned stage |
| `MultiLevelAssigner.OutputsMatchH` | tests/test_multi_level_assigner/protocol/assigner.py:422-533 | a successful h handler writes a field iff the field is of family h with a declared assigned stage |
| `MultiLevelAssigner.DeclaredNames` | tests/test_multi_level_assigner/protocol/assigner.py:12-16 | a result whose fields are exactly a handler's declared assigned stages has, by name, exactly the field names of its decorator |
| `MultiLevelAssigner.NamedOutputsChains` | tests/test_multi_level_assigner/protocol/assigner.py:12-181 | read by name, the outputs of an a, c, d or e handler are exactly its decorator's `assigned_fields` |
| `MultiLevelAssigner.NamedOutputsB` | tests/test_multi_level_assigner/protocol/assigner.py:43-126 | read by name, the outputs of a successful b handler are exactly its decorator's `assigned_fields` |
| `MultiLevelAssigner.NamedOutputsF` | tests/test_multi_level_assigner/protocol/assigner.py:184-290 | read by name, the outputs of an f handler are exactly its decorator's `assigned_fields` |
| `MultiLevelAssigner.NamedOutputsG` | tests/test_multi_level_assigner/protocol/assigner.py:293-419 | read by name, the outputs of a g handler are exactly its decorator's `assigned_fields` |
| `MultiLevelAssigner.NamedOutputsH` | tests/test_multi_level_assigner/protocol/assigner.py:422-533 | read by name, the outputs of a successful h handler are exactly its decorator's `assigned_fields` |
| `MultiLevelAssigner.FailsOnlyOnNegativeDelayB` | tests/test_multi_level_assigner/protocol/assigner.py:43-126 | a b handler fails iff it validates b4 (only the slow auto handler does) and b4 is negative; the failure carries the b4 message |
| `MultiLevelAssigner.FailsOnlyOnNegativeDelayH` | tests/test_multi_level_assigner/protocol/assigner.py:427-512 | an h handler fails iff it validates a delay (h6, h7 or h8) and that delay is negative; the failure carries that delay's exact message |
| `MultiLevelAssigner.HandlersApplyRule` | tests/test_multi_level_assigner/protocol/assigner.py:55-512 | each of the four delay-validating handlers succeeds iff the delay computed from its rule's field and cap is accepted |
| `MultiLevelAssigner.DelayBounds` | tests/test_multi_level_assigner/protocol/assigner.py:62-501 | a missing or falsy delay counts as 0; the delay is rejected iff it is negative; an accepted delay lies in [0, 60] for b4 and in [0, 5] for h6, h7 and h8 |
| `MultiLevelAssigner.AChain` | tests/test_multi_level_assigner/protocol/assigner.py:17-40 | feeding a3 into a4 and a4 into a5 gives a5 = 9·(a1 + a2)², never negative |
| `MultiLevelAssigner.AChainExample` | tests/test_multi_level_assigner/protocol/assigner.py:17-40 | a1 = 2 and a2 = 3 give a5 = 225 |
| `MultiLevelAssigner.DChain` | tests/test_multi_level_assigner/protocol/assigner.py:140-168 | the d chain computes the same value as the a chain: d5 = 9·(d1 + d2)² |
| `MultiLevelAssigner.SumsAgree` | tests/test_multi_level_assigner/protocol/assigner.py:129-181 | the auto_first handlers c3 and e3 and the first a step all compute x + y |
| `MultiLevelAssigner.BConsumers` | tests/test_multi_level_assigner/protocol/assigner.py:85-126 | b9 = b5 + b6 and b12 = b5·b6 for any b5, b6, each stamped with the clock readings |
| `MultiLevelAssigner.BPipeline` | tests/test_multi_level_assigner/protocol/assigner.py:43-126 | with an accepted delay: b5 = b1·b2 + b3, b6 = 2·b5, b9 = 3·b5, b12 = 2·b5², and b7 and b8 are the clock readings |
| `MultiLevelAssigner.GFansOut` | tests/test_multi_level_assigner/protocol/assigner.py:293-372 | stages 1 and 2 of the g diamond give g11..g14 as sums and products of g1..g4 |
| `MultiLevelAssigner.GConverges` | tests/test_multi_level_assigner/protocol/assigner.py:375-419 | g15 + g16 = g17, hence g18 = g17, g19 = g16 and g20 = g16 + g17 |
| `MultiLevelAssigner.FPipeline` | tests/test_multi_level_assigner/protocol/assigner.py:184-290 | chaining f6..f15 gives f15 = 2·(f1 + f2)·f2·f3 + 3·(f4 − f5) + f2 + f2·f3 |
| `MultiLevelAssigner.PiecesFormat` | tests/test_multi_level_assigner/protocol/assigner.py:427-451 | with an accepted h6, the piece builder returns exactly h9 = h1-h2, h10 = UPPER(h2)_h3, h11 = h4:h5 |
| `MultiLevelAssigner.JoinerFormat` | tests/test_multi_level_assigner/protocol/assigner.py:459-483 | with an accepted h7, the joiner returns exactly h12 = h9, a vertical bar, h10, and h13 = "[" + h12 + "]<" + h11 + ">" |
| `MultiLevelAssigner.HJoinFormat` | tests/test_multi_level_assigner/protocol/assigner.py:422-483 | from h1..h5, the builder then the joiner give h13 = "[" + h12 + "]<h4:h5>" with h12 = h1-h2, a vertical bar, UPPER(h2)_h3, eight characters longer than its parts |
| `MultiLevelAssigner.SplitterPieces` | tests/test_multi_level_assigner/protocol/assigner.py:491-512 | h14, h15 and h16 have length min(5, max(0, len(t) − 5k)); h17 is the text from index 15 on, or empty |
| `MultiLevelAssigner.SplitRecombine` | tests/test_multi_level_assigner/protocol/assigner.py:505-531 | splitting any text and recombining the slices gives the text back as h18, with h19 = "len=" + its length in decimal |
| `Values.DelayAt` | tests/test_multi_level_assigner/protocol/assigner.py:62 | `int(get(key) or 0)`: missing or falsy gives 0, an integer gives itself |
| `Text.StripTrimmed` | tests/test_aimd_multi_hop_image/protocol/assigner.py:7-8 | the result of `strip()` has no whitespace at either end |
| `Text.StripSplits` | tests/test_aimd_multi_hop_image/protocol/assigner.py:7-8 | every string is whitespace + its strip + whitespace |
| `Text.StripOfPadded` | tests/test_aimd_multi_hop_image/protocol/assigner.py:10-20 | stripping whitespace around a trimmed core gives exactly the core |
| `Text.StripIgnoresPadding` | tests/test_aimd_multi_hop_image/protocol/assigner.py:7-8 | extra leading or trailing whitespace does not change `strip()` |
| `Text.StripIdempotent` | tests/test_aimd_multi_hop_image/protocol/assigner.py:7-8 | `strip()` applied twice equals `strip()` applied once |
| `Text.Upper` | tests/test_multi_level_assigner/protocol/assigner.py:448 | `upper()` keeps the length and maps each character on its own |
| `Text.UpperIdempotent` | tests/test_multi_level_assigner/protocol/assigner.py:448 | `upper()` is idempotent and leaves no lower-case ASCII letter |
| `Text.Slice` | tests/test_multi_level_assigner/protocol/assigner.py:507-509 | `s[lo:hi]` clamps both bounds to the length and keeps the characters from `lo` |
| `Text.SliceFrom` | tests/test_multi_level_assigner/protocol/assigner.py:510 | `s[lo:]` clamps `lo` and keeps the rest |
| `Text.SlicesJoin` | tests/test_multi_level_assigner/protocol/assigner.py:505-531 | `t[0:5] + t[5:10] + t[10:15] + t[15:]` equals `t` for every length |
| `Text.DecimalDigits` | tests/test_multi_level_assigner/protocol/assigner.py:531 | a rendered length is a non-empty string of digits with no leading zero |
| `Text.DecimalRoundTrip` | tests/test_multi_level_assigner/protocol/assigner.py:531 | reading back the decimal rendering of n gives n |
| `Text.DecimalInjective` | tests/test_multi_level_assigner/protocol/assigner.py:531 | different numbers render differently |
| `Text.IntToDecimal` | tests/test_multi_level_assigner/protocol/assigner.py:428-432 | `str(n)` is non-empty and starts with a digit iff n is not negative |
| `DownstreamAimd.Normalise` | tests/test_aimd_multi_hop_image/protocol/assigner.py:7-8 | `(v or "").strip()` has no whitespace at either end, and None gives "" |
| `DownstreamAimd.UpstreamText` | tests/test_aimd_multi_hop_image/protocol/assigner.py:7-8 | a normalised upstream text is trimmed, and a missing one is "" |
| `DownstreamAimd.NormaliseString` | tests/test_aimd_multi_hop_image/protocol/assigner.py:7-8 | a stored string normalises to its strip, including the falsy "" |
| `DownstreamAimd.NormaliseIgnoresPadding` | tests/test_aimd_multi_hop_image/protocol/assigner.py:7-8 | padding a stored string with whitespace does not change its normalised form |
| `DownstreamAimd.NormaliseIdempotent` | tests/test_aimd_multi_hop_image/protocol/assigner.py:7-8 | normalising a normalised text changes nothing |
| `DownstreamAimd.StripTemplate` | tests/test_aimd_multi_hop_image/protocol/assigner.py:10-20 | stripping the template removes exactly its first and last newline, and also the newline after the second heading when u2 is empty |
| `DownstreamAimd.BuildIsDocument` | tests/test_aimd_multi_hop_image/protocol/assigner.py:6-20 | the built document is exactly the title, headings, rule and normalised texts in template order |
| `DownstreamAimd.DocumentOrder` | tests/test_aimd_multi_hop_image/protocol/assigner.py:10-20 | the offsets of the title, first heading, u1, rule, second heading and u2 are increasing, and u2 (when not empty) ends the document |
| `DownstreamAimd.TitleFirstUpstreamLast` | tests/test_aimd_multi_hop_image/protocol/assigner.py:6-20 | the document starts with the title and, when u2 is not empty, ends with u2 |
| `DownstreamAimd.DocumentIgnoresPadding` | tests/test_aimd_multi_hop_image/protocol/assigner.py:6-20 | padding either upstream text with whitespace leaves the document unchanged |
| `DownstreamAimd.AssembleDownstreamAimd` | tests/test_aimd_multi_hop_image/protocol/assigner.py:23-30 | never fails; its only key is "downstream_aimd", which agrees with its declaration |
| `DownstreamAimd.ReadsOnlyDeclared` | tests/test_aimd_multi_hop_image/protocol/assigner.py:23-30 | the result depends only on the two declared dependent fields |

## Left out

- `int(...)` of a value that is not already an integer is not modelled. In Python, `int("7")` parses a string and `int(None)` raises. Each `LineX` requires integer values where it reads one with `int(...)`. A delay field may be missing, falsy or an integer.
- A missing field read with `str(dependent_fields[...])` is not modelled. In Python it raises `KeyError`. `LineHPieceBuilder`, `LineHJoiner`, `LineHSplitter` and `LineHRecombine` require every field they read this way to be present.
- `str(...)` is modelled only for None, integers and strings. Values of other Python types (floats, booleans, lists) are not part of `Value`.
- `DownstreamAimd.UpstreamReadable` requires an upstream value to be missing, falsy or a string. In Python, `.strip()` on any other truthy value raises an attribute error.
- `time.sleep` (in the slow b handler and the first three h handlers) and the `_now_iso()` readings (in the three timed b handlers) are real-time effects. The readings are the `Clock` parameter. The sleep is a no-op once the delay is validated and clamped, and the seconds slept are the `Sleep` value of `ClampDelay`.
- `str.upper()` is ASCII-only. Unicode case mapping (for example "ß" becoming "SS", which changes the length) is not modelled.
- The scheduling engine is not part of the shown source. This includes the `auto` / `manual` / `auto_first` trigger modes, propagation, invalidation, concurrency and timeouts. The modes appear only as declaration data.
- tests/test_aimd_image/protocol/assigner.py is not part of this model. It is glue over a markdown parser, a file-URL client and a network API.
- The pipeline lemmas read an integer result with `Out`, which gives 0 when a result does not assign an integer. `AChain`, `DChain`, `SumsAgree`, `BConsumers`, `GFansOut`, `GConverges` and `FPipeline` call each handler with a mapping that holds only the handler's declared dependent fields, filled with protocol inputs or with what the earlier handlers assigned. `BPipeline`, `PiecesFormat`, `JoinerFormat`, `HJoinFormat` and `SplitRecombine` take a record from the caller, which may hold other fields, and add the earlier handlers' outputs to it.
