/** The downstream document assembler of the multi-hop AIMD fixture protocol: it
    takes two upstream AIMD texts and splices them into a fixed Markdown template.
 */
module DownstreamAimd {
  import opened Values
  import opened Text
  import opened Declarations

  /** The dependent-field mapping this assigner reads, keyed by field name. */
  type Fields = map<string, Value>

  const Upstream1: string := "upstream_aimd_1"
  const Upstream2: string := "upstream_aimd_2"
  const Downstream: string := "downstream_aimd"

  /** The `@assigner(...)` declaration of `assemble_downstream_aimd`. */
  const DownstreamDeclaration: AssignerSpec := AssignerSpec([Downstream], [Upstream1, Upstream2], Auto)

  // The lines of the template.
  const Title: string := "# Downstream AIMD (Auto-Assembled)"
  const Heading1: string := "## Upstream AIMD #1"
  const Separator: string := "---"
  const Heading2: string := "## Upstream AIMD #2"

  /** A value `(v or "").strip()` can normalise: a falsy value or a string.
      (`.strip()` on any other truthy value is an attribute error.) */
  predicate Normalisable(v: Value) {
    Falsy(v) || v.Str?
  }

  /** `(v or "").strip()`. */
  function Normalise(v: Value): (u: string)
    requires Normalisable(v)
    ensures Trimmed(u)
    ensures v.Null? ==> u == ""
  {
    var s := if Falsy(v) then "" else v.s;
    StripTrimmed(s);
    Strip(s)
  }

  predicate UpstreamReadable(deps: Fields, key: string) {
    Normalisable(Get(deps, key))
  }

  /** `(dependent_fields.get(key) or "").strip()`: a missing field counts as "". */
  function UpstreamText(deps: Fields, key: string): (u: string)
    requires UpstreamReadable(deps, key)
    ensures Trimmed(u)
    ensures key !in deps ==> u == ""
  {
    Normalise(Get(deps, key))
  }

  /** The template between its opening newline and the newline before the second
      text: the title, a blank line, the first heading and text, a blank line, the
      rule, a blank line and the second heading. */
  function Body(u1: string): string {
    Title + "\n\n" + Heading1 + "\n" + u1 + "\n\n" + Separator + "\n\n" + Heading2
  }

  /** The f-string before its outer `.strip()`. */
  function Template(u1: string, u2: string): string {
    "\n" + Body(u1) + "\n" + u2 + "\n"
  }

  /** `build_downstream_aimd`. */
  function BuildDownstreamAimd(deps: Fields): string
    requires UpstreamReadable(deps, Upstream1) && UpstreamReadable(deps, Upstream2)
  {
    Strip(Template(UpstreamText(deps, Upstream1), UpstreamText(deps, Upstream2)))
  }

  /** `assemble_downstream_aimd`: the document, under its one declared field. */
  function AssembleDownstreamAimd(deps: Fields): (r: AssignerResult<string>)
    requires UpstreamReadable(deps, Upstream1) && UpstreamReadable(deps, Upstream2)
    ensures r.Success? && r.outputs.Keys == {Downstream}
    ensures r.outputs[Downstream] == Str(BuildDownstreamAimd(deps))
    ensures OutputsMatch(DownstreamDeclaration, r)
  {
    Success(map[Downstream := Str(BuildDownstreamAimd(deps))])
  }

  // ---------------------------------------------------------------------------
  // The document's exact form
  // ---------------------------------------------------------------------------

  /** The document the template yields for trimmed texts `u1` and `u2`: the outer
      strip removes the template's first and last newline and, when `u2` is empty,
      the newline after the second heading as well. */
  function Document(u1: string, u2: string): string {
    Body(u1) + (if u2 == [] then [] else "\n" + u2)
  }

  /** The body starts with the title's '#' and ends with the second heading's '2'. */
  lemma BodyEnds(u1: string)
    ensures |Body(u1)| > 0 && Body(u1)[0] == '#' && Body(u1)[|Body(u1)| - 1] == '2'
  {
    var prefix := Title + "\n\n" + Heading1 + "\n" + u1 + "\n\n" + Separator + "\n\n";
    assert Body(u1) == prefix + Heading2;
    assert Title[0] == '#' && Heading2[|Heading2| - 1] == '2';
  }

  /** Regrouping the template around the document. */
  lemma TemplateAround(body: string, u2: string)
    ensures "\n" + body + "\n" + u2 + "\n" ==
      "\n" + (body + (if u2 == [] then [] else "\n" + u2)) + (if u2 == [] then "\n\n" else "\n")
  {
  }

  /** With a trimmed second text, stripping the template leaves exactly `Document`. */
  lemma StripTemplate(u1: string, u2: string)
    requires Trimmed(u2)
    ensures Strip(Template(u1, u2)) == Document(u1, u2)
  {
    var body := Body(u1);
    BodyEnds(u1);
    TemplateAround(body, u2);
    var d := Document(u1, u2);
    if u2 == [] {
      assert d == body;
      StripOfPadded("\n", d, "\n\n");
    } else {
      assert d[0] == body[0] && d[|d| - 1] == u2[|u2| - 1];
      StripOfPadded("\n", d, "\n");
    }
  }

  /** The assembled document is `Document` of the two normalised upstream texts. */
  lemma BuildIsDocument(deps: Fields)
    requires UpstreamReadable(deps, Upstream1) && UpstreamReadable(deps, Upstream2)
    ensures BuildDownstreamAimd(deps) == Document(UpstreamText(deps, Upstream1), UpstreamText(deps, Upstream2))
  {
    StripTemplate(UpstreamText(deps, Upstream1), UpstreamText(deps, Upstream2));
  }

  /** The offsets of the parts of `t + "\n\n" + h1 + "\n" + u1 + "\n\n" + sep + "\n\n" + h2 + tail`. */
  lemma Layout(t: string, h1: string, u1: string, sep: string, h2: string, tail: string)
    ensures var d := t + "\n\n" + h1 + "\n" + u1 + "\n\n" + sep + "\n\n" + h2 + tail;
      var o1 := |t| + 2;
      var o2 := o1 + |h1| + 1;
      var o3 := o2 + |u1| + 2;
      var o4 := o3 + |sep| + 2;
      && |d| == o4 + |h2| + |tail|
      && d[..|t|] == t
      && d[o1..o1 + |h1|] == h1
      && d[o2..o2 + |u1|] == u1
      && d[o3..o3 + |sep|] == sep
      && d[o4..o4 + |h2|] == h2
      && d[o4 + |h2|..] == tail
  {
    var d := t + "\n\n" + h1 + "\n" + u1 + "\n\n" + sep + "\n\n" + h2 + tail;
    var o1 := |t| + 2;
    var o2 := o1 + |h1| + 1;
    var o3 := o2 + |u1| + 2;
    var o4 := o3 + |sep| + 2;
    assert d[..|t|] == t;
    assert d[o1..o1 + |h1|] == h1;
    assert d[o2..o2 + |u1|] == u1;
    assert d[o3..o3 + |sep|] == sep;
    assert d[o4..o4 + |h2|] == h2;
    assert d[o4 + |h2|..] == tail;
  }

  /** Where each part sits in the document: the title first, then the first heading,
      the first text, the rule, the second heading and, when it is not empty, the
      second text, which ends the document. */
  lemma DocumentOrder(u1: string, u2: string)
    ensures var d := Document(u1, u2);
      var o1 := |Title| + 2;
      var o2 := o1 + |Heading1| + 1;
      var o3 := o2 + |u1| + 2;
      var o4 := o3 + |Separator| + 2;
      && |d| >= o4 + |Heading2|
      && d[..|Title|] == Title
      && d[o1..o1 + |Heading1|] == Heading1
      && d[o2..o2 + |u1|] == u1
      && d[o3..o3 + |Separator|] == Separator
      && d[o4..o4 + |Heading2|] == Heading2
      && (u2 == [] ==> |d| == o4 + |Heading2|)
      && (u2 != [] ==> d[o4 + |Heading2| + 1..] == u2)
  {
    var tail: string := if u2 == [] then [] else "\n" + u2;
    Layout(Title, Heading1, u1, Separator, Heading2, tail);
    if u2 != [] {
      var d := Document(u1, u2);
      var o := |d| - |u2|;
      assert d[o..] == tail[1..];
    }
  }

  /** The document always opens with the title and, when the second upstream text
      is not empty, closes with it. */
  lemma TitleFirstUpstreamLast(deps: Fields)
    requires UpstreamReadable(deps, Upstream1) && UpstreamReadable(deps, Upstream2)
    ensures var doc, u2 := BuildDownstreamAimd(deps), UpstreamText(deps, Upstream2);
      |doc| >= |Title| && doc[..|Title|] == Title &&
      (u2 != [] ==> |doc| >= |u2| && doc[|doc| - |u2|..] == u2)
  {
    BuildIsDocument(deps);
    DocumentOrder(UpstreamText(deps, Upstream1), UpstreamText(deps, Upstream2));
  }

  // ---------------------------------------------------------------------------
  // Normalisation of the upstream texts
  // ---------------------------------------------------------------------------

  /** A stored string normalises to its stripped form (an empty string is falsy,
      and strips to itself). */
  lemma NormaliseString(x: string)
    ensures Normalise(Str(x)) == Strip(x)
  {
    if x == [] {
      assert Strip(x) == [];
    }
  }

  /** Whitespace around an upstream text does not change its normalised form. */
  lemma NormaliseIgnoresPadding(w1: string, s: string, w2: string)
    requires AllSpace(w1) && AllSpace(w2)
    ensures Normalise(Str(w1 + s + w2)) == Normalise(Str(s))
  {
    NormaliseString(w1 + s + w2);
    NormaliseString(s);
    StripIgnoresPadding(w1, s, w2);
  }

  /** Normalising an already normalised text changes nothing. */
  lemma NormaliseIdempotent(v: Value)
    requires Normalisable(v)
    ensures Normalise(Str(Normalise(v))) == Normalise(v)
  {
    NormaliseString(Normalise(v));
    StripIdempotent(if Falsy(v) then "" else v.s);
  }

  /** Padding either upstream text with whitespace leaves the document unchanged. */
  lemma DocumentIgnoresPadding(deps: Fields, key: string, w1: string, s: string, w2: string)
    requires key == Upstream1 || key == Upstream2
    requires UpstreamReadable(deps, Upstream1) && UpstreamReadable(deps, Upstream2)
    requires AllSpace(w1) && AllSpace(w2)
    ensures BuildDownstreamAimd(deps[key := Str(w1 + s + w2)]) == BuildDownstreamAimd(deps[key := Str(s)])
  {
    NormaliseIgnoresPadding(w1, s, w2);
    assert Upstream1 != Upstream2 by {
      assert Upstream1[14] != Upstream2[14];
    }
  }

  /** The document depends only on the two declared dependent fields. */
  lemma ReadsOnlyDeclared(deps1: Fields, deps2: Fields)
    requires UpstreamReadable(deps1, Upstream1) && UpstreamReadable(deps1, Upstream2)
    requires forall k :: k in DownstreamDeclaration.dependentFields ==>
      (k in deps1 <==> k in deps2) && (k in deps1 ==> deps1[k] == deps2[k])
    ensures UpstreamReadable(deps2, Upstream1) && UpstreamReadable(deps2, Upstream2)
    ensures AssembleDownstreamAimd(deps1) == AssembleDownstreamAimd(deps2)
  {
    assert Upstream1 in DownstreamDeclaration.dependentFields;
    assert Upstream2 in DownstreamDeclaration.dependentFields;
  }
}
