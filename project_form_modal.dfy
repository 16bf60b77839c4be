/** The admin's project form: the tech-stack list is edited as one comma-separated
    string, joined with ", " when a project is opened for editing and split, trimmed
    and filtered when the form is submitted. */
module ProjectFormModal {
  import opened Common

  // ---------------------------------------------------------------------------
  // String operations, each with JavaScript's semantics

  /** A character `String.prototype.trim` removes: the ECMAScript white space and
      line terminator characters. */
  predicate IsSpace(c: char)
  {
    c == ' ' || c == '\t' || c == '\n' || c == '\r' || c == '\U{B}' || c == '\U{C}'
    || c == '\U{A0}' || c == '\U{1680}' || ('\U{2000}' <= c <= '\U{200A}')
    || c == '\U{2028}' || c == '\U{2029}' || c == '\U{202F}' || c == '\U{205F}'
    || c == '\U{3000}' || c == '\U{FEFF}'
  }

  /** Neither end of the string is white space. */
  predicate IsTrimmed(s: string)
  {
    s == [] || (!IsSpace(s[0]) && !IsSpace(s[|s| - 1]))
  }

  /** Every character of the string is white space. */
  predicate AllSpace(s: string)
  {
    forall i | 0 <= i < |s| :: IsSpace(s[i])
  }

  /** `trimStart`: the input with its leading white space, and only that, removed. */
  function TrimStart(s: string): (r: string)
    ensures r == [] || !IsSpace(r[0])
    ensures |r| <= |s| && s[|s| - |r|..] == r
    ensures AllSpace(s[..|s| - |r|])
  {
    if s != [] && IsSpace(s[0]) then TrimStart(s[1..]) else s
  }

  /** `trimEnd`: the input with its trailing white space, and only that, removed. */
  function TrimEnd(s: string): (r: string)
    ensures r == [] || !IsSpace(r[|r| - 1])
    ensures r <= s
    ensures AllSpace(s[|r|..])
  {
    if s != [] && IsSpace(s[|s| - 1]) then TrimEnd(s[..|s| - 1]) else s
  }

  lemma PrefixChars(p: string, s: string)
    requires p <= s
    ensures forall c | c in p :: c in s
  {
    forall c | c in p
      ensures c in s
    {
      var i :| 0 <= i < |p| && p[i] == c;
      assert s[i] == c;
    }
  }

  lemma SuffixChars(s: string, k: nat)
    requires k <= |s|
    ensures forall c | c in s[k..] :: c in s
  {
    forall c | c in s[k..]
      ensures c in s
    {
      var i :| 0 <= i < |s| - k && s[k..][i] == c;
      assert s[k + i] == c;
    }
  }

  /** `r` is the piece of `s` starting at `a`, with only white space before and
      after it. */
  predicate PieceAt(s: string, r: string, a: nat)
  {
    a + |r| <= |s| && r == s[a..a + |r|] && AllSpace(s[..a]) && AllSpace(s[a + |r|..])
  }

  /** A prefix `r` of a suffix `t` of `s`, where what lies before `t` and after `r`
      is white space, is a piece of `s` between two runs of white space. */
  lemma TrimmedPiece(s: string, t: string, r: string)
    requires |t| <= |s| && s[|s| - |t|..] == t && AllSpace(s[..|s| - |t|])
    requires r <= t && AllSpace(t[|r|..])
    ensures forall c | c in r :: c in s
    ensures exists a: nat | a <= |s| :: PieceAt(s, r, a)
  {
    PrefixChars(r, t);
    SuffixChars(s, |s| - |t|);
    var a := |s| - |t|;
    assert s[a..a + |r|] == t[..|r|] == r;
    assert s[a + |r|..] == t[|r|..];
    assert PieceAt(s, r, a);
  }

  /** `s.trim()`: the piece of the input left once the white space at both ends is
      removed. */
  function Trim(s: string): (r: string)
    ensures IsTrimmed(r)
    ensures forall c | c in r :: c in s
    ensures exists a: nat | a <= |s| :: PieceAt(s, r, a)
  {
    var t := TrimStart(s);
    var r := TrimEnd(t);
    TrimmedPiece(s, t, r);
    r
  }

  /** Leading white space is exactly what `trimStart` removes: after any run of
      white space, a string that does not start with white space is kept whole. */
  lemma {:induction false} TrimStartPadded(w: string, t: string)
    requires AllSpace(w) && (t == [] || !IsSpace(t[0]))
    ensures TrimStart(w + t) == t
    decreases |w|
  {
    if w == [] {
      assert w + t == t;
    } else {
      assert (w + t)[0] == w[0];
      assert (w + t)[1..] == w[1..] + t;
      TrimStartPadded(w[1..], t);
    }
  }

  /** Likewise for trailing white space and `trimEnd`. */
  lemma {:induction false} TrimEndPadded(t: string, w: string)
    requires AllSpace(w) && (t == [] || !IsSpace(t[|t| - 1]))
    ensures TrimEnd(t + w) == t
    decreases |w|
  {
    if w == [] {
      assert t + w == t;
    } else {
      var n := |t + w|;
      assert (t + w)[n - 1] == w[|w| - 1];
      assert (t + w)[..n - 1] == t + w[..|w| - 1];
      TrimEndPadded(t, w[..|w| - 1]);
    }
  }

  /** `trim` undoes any white-space padding of a trimmed string. */
  lemma TrimPadded(w1: string, t: string, w2: string)
    requires AllSpace(w1) && AllSpace(w2) && IsTrimmed(t)
    ensures Trim(w1 + t + w2) == t
  {
    if t == [] {
      var w := w1 + w2;
      assert w1 + t + w2 == w + t;
      assert forall i | 0 <= i < |w| :: w[i] == if i < |w1| then w1[i] else w2[i - |w1|];
      TrimStartPadded(w, t);
    } else {
      assert w1 + t + w2 == w1 + (t + w2);
      assert (t + w2)[0] == t[0];
      TrimStartPadded(w1, t + w2);
      TrimEndPadded(t, w2);
    }
  }

  /** `s.split(',')`: the pieces between commas, the empty string giving one empty
      piece. */
  function Split(s: string): (parts: seq<string>)
    ensures |parts| >= 1
    ensures forall i | 0 <= i < |parts| :: ',' !in parts[i]
  {
    if s == [] then [""]
    else
      var rest := Split(s[1..]);
      if s[0] == ',' then [""] + rest
      else [[s[0]] + rest[0]] + rest[1..]
  }

  /** `tags.join(', ')`. */
  function Join(tags: seq<string>): string
  {
    if tags == [] then ""
    else if |tags| == 1 then tags[0]
    else tags[0] + ", " + Join(tags[1..])
  }

  function TrimAll(parts: seq<string>): (r: seq<string>)
    ensures |r| == |parts|
    ensures forall i | 0 <= i < |r| :: r[i] == Trim(parts[i])
  {
    seq(|parts|, i requires 0 <= i < |parts| => Trim(parts[i]))
  }

  /** `.filter(Boolean)` on strings: drops the empty ones, keeping the order. */
  function NonEmpty(parts: seq<string>): seq<string>
  {
    if parts == [] then []
    else if parts[0] == "" then NonEmpty(parts[1..])
    else [parts[0]] + NonEmpty(parts[1..])
  }

  /** The tech-stack parse of the submit handler:
      `s.split(',').map((s) => s.trim()).filter(Boolean)`. */
  function ParseTechStack(s: string): seq<string>
  {
    NonEmpty(TrimAll(Split(s)))
  }

  /** A tag that survives the parse unchanged: non-empty, trimmed, without a comma. */
  predicate IsTag(t: string)
  {
    t != "" && IsTrimmed(t) && ',' !in t
  }

  // ---------------------------------------------------------------------------
  // Properties of the parse

  lemma {:induction false} NonEmptyKeeps(parts: seq<string>, p: string -> bool)
    requires forall i | 0 <= i < |parts| :: parts[i] != "" ==> p(parts[i])
    ensures forall t | t in NonEmpty(parts) :: t != "" && p(t)
  {
    if parts != [] {
      NonEmptyKeeps(parts[1..], p);
    }
  }

  /** Every parsed entry is a non-empty, trimmed string with no comma in it. */
  lemma ParsedEntriesAreTags(s: string)
    ensures forall t | t in ParseTechStack(s) :: IsTag(t)
  {
    var parts := TrimAll(Split(s));
    forall i | 0 <= i < |parts|
      ensures parts[i] != "" ==> IsTag(parts[i])
    {
      assert ',' !in Split(s)[i];
    }
    NonEmptyKeeps(parts, IsTag);
  }

  lemma {:induction false} SplitNoComma(a: string)
    requires ',' !in a
    ensures Split(a) == [a]
  {
    if a != [] {
      SplitNoComma(a[1..]);
      assert [a[0]] + a[1..] == a;
    }
  }

  lemma {:induction false} SplitAtComma(a: string, b: string)
    requires ',' !in a
    ensures Split(a + "," + b) == [a] + Split(b)
  {
    if a == [] {
      assert a + "," + b == [','] + b;
      assert ([','] + b)[1..] == b;
    } else {
      SplitAtComma(a[1..], b);
      assert (a + "," + b)[1..] == a[1..] + "," + b;
      assert [a[0]] + a[1..] == a;
    }
  }

  /** Splitting joined tags gives the first tag and then each later tag behind the
      space that ", " leaves. */
  lemma {:induction false} SplitJoin(tags: seq<string>)
    requires |tags| >= 1
    requires forall i | 0 <= i < |tags| :: ',' !in tags[i]
    ensures |Split(Join(tags))| == |tags|
    ensures Split(Join(tags))[0] == tags[0]
    ensures forall i | 1 <= i < |tags| :: Split(Join(tags))[i] == " " + tags[i]
  {
    if |tags| == 1 {
      SplitNoComma(tags[0]);
    } else {
      var rest := tags[1..];
      SplitJoin(rest);
      assert Join(tags) == tags[0] + "," + (" " + Join(rest));
      SplitAtComma(tags[0], " " + Join(rest));
      var parts := Split(" " + Join(rest));
      assert " " + Join(rest) == [' '] + Join(rest);
      assert parts == [[' '] + Split(Join(rest))[0]] + Split(Join(rest))[1..];
    }
  }

  lemma TrimTag(t: string)
    requires IsTrimmed(t)
    ensures Trim(t) == t
    ensures Trim(" " + t) == t
  {
    assert TrimStart(t) == t;
    assert TrimEnd(t) == t;
    var s := " " + t;
    assert s[1..] == t && IsSpace(s[0]);
    assert TrimStart(s) == TrimStart(t);
  }

  lemma {:induction false} NonEmptyOfTags(parts: seq<string>)
    requires forall i | 0 <= i < |parts| :: parts[i] != ""
    ensures NonEmpty(parts) == parts
  {
    if parts != [] {
      NonEmptyOfTags(parts[1..]);
    }
  }

  lemma TrimSplitJoin(tags: seq<string>)
    requires |tags| >= 1
    requires forall i | 0 <= i < |tags| :: IsTag(tags[i])
    ensures TrimAll(Split(Join(tags))) == tags
  {
    SplitJoin(tags);
    var parts := Split(Join(tags));
    var trimmed := TrimAll(parts);
    forall i | 0 <= i < |tags|
      ensures trimmed[i] == tags[i]
    {
      TrimTag(tags[i]);
      if i == 0 {
        assert parts[i] == tags[i];
      } else {
        assert parts[i] == " " + tags[i];
      }
    }
  }

  /** Round trip: a list of tags joined for the form and parsed back on submit is
      the same list, in the same order. */
  lemma ParseJoin(tags: seq<string>)
    requires forall i | 0 <= i < |tags| :: IsTag(tags[i])
    ensures ParseTechStack(Join(tags)) == tags
  {
    if tags == [] {
      assert Split("") == [""];
      assert Trim("") == "";
    } else {
      TrimSplitJoin(tags);
      NonEmptyOfTags(tags);
    }
  }

  /** Parsing is a projection: joining a parsed list and parsing it again gives the
      same list. */
  lemma ParseIdempotent(s: string)
    ensures ParseTechStack(Join(ParseTechStack(s))) == ParseTechStack(s)
  {
    var tags := ParseTechStack(s);
    ParsedEntriesAreTags(s);
    assert forall i | 0 <= i < |tags| :: tags[i] in tags;
    ParseJoin(tags);
  }

  // ---------------------------------------------------------------------------
  // The form

  /** The form's state cell; `techStack` is the comma-separated text. */
  datatype Form = Form(
    title: string, description: string, techStack: string, category: string,
    imageUrl: string, liveUrl: string, githubUrl: string)

  const BlankForm: Form := Form("", "", "", "frontend", "", "", "")

  /** What the form holds after it is opened: the project's fields, with `''` for
      a missing field and `'frontend'` for a missing category; the blank form when
      there is no project to edit. */
  function FormFor(editProject: Option<Project>): Form
  {
    match editProject
    case None => BlankForm
    case Some(p) =>
      Form(OrDefault(p.title, ""), OrDefault(p.description, ""), Join(ListOrEmpty(p.techStack)),
           OrDefault(p.category, "frontend"), OrDefault(p.imageUrl, ""),
           OrDefault(p.liveUrl, ""), OrDefault(p.githubUrl, ""))
  }

  lemma OpenForEdit(p: Project)
    ensures FormFor(Some(p)).title == (if p.title.Some? then p.title.value else "")
    ensures FormFor(Some(p)).description == (if p.description.Some? then p.description.value else "")
    ensures FormFor(Some(p)).imageUrl == (if p.imageUrl.Some? then p.imageUrl.value else "")
    ensures FormFor(Some(p)).liveUrl == (if p.liveUrl.Some? then p.liveUrl.value else "")
    ensures FormFor(Some(p)).githubUrl == (if p.githubUrl.Some? then p.githubUrl.value else "")
    ensures p.category.None? || p.category == Some("") ==> FormFor(Some(p)).category == "frontend"
    ensures p.category.Some? && p.category.value != "" ==> FormFor(Some(p)).category == p.category.value
    ensures p.techStack.None? ==> FormFor(Some(p)).techStack == ""
  {
  }

  /** Opening without a project gives the blank form: every field empty and the
      category `'frontend'`. */
  lemma OpenForNew()
    ensures var f := FormFor(None);
      f.title == f.description == f.techStack == f.imageUrl == f.liveUrl == f.githubUrl == ""
      && f.category == "frontend"
  {
  }

  /** What submit sends: every field of the form as it is, with the tech-stack text
      parsed into a list. */
  datatype Payload = Payload(
    title: string, description: string, techStack: seq<string>, category: string,
    imageUrl: string, liveUrl: string, githubUrl: string)

  function MakePayload(f: Form): Payload
  {
    Payload(f.title, f.description, ParseTechStack(f.techStack), f.category,
            f.imageUrl, f.liveUrl, f.githubUrl)
  }

  /** Opening a project for editing and submitting without a change sends the
      project's own values back, its tag list included, provided every tag is a
      non-empty trimmed string without a comma and no field is missing or empty. */
  lemma EditRoundTrip(p: Project)
    requires p.title.Some? && p.description.Some? && p.techStack.Some? && p.category.Some?
    requires p.imageUrl.Some? && p.liveUrl.Some? && p.githubUrl.Some?
    requires p.category.value != ""
    requires forall i | 0 <= i < |p.techStack.value| :: IsTag(p.techStack.value[i])
    ensures MakePayload(FormFor(Some(p))) ==
      Payload(p.title.value, p.description.value, p.techStack.value, p.category.value,
              p.imageUrl.value, p.liveUrl.value, p.githubUrl.value)
  {
    ParseJoin(p.techStack.value);
  }

  /** The inputs' change handlers each replace one field. */
  datatype Field = Title | Description | TechStack | Category | ImageUrl | LiveUrl | GithubUrl

  function WithField(f: Form, field: Field, v: string): Form
  {
    match field
    case Title => f.(title := v)
    case Description => f.(description := v)
    case TechStack => f.(techStack := v)
    case Category => f.(category := v)
    case ImageUrl => f.(imageUrl := v)
    case LiveUrl => f.(liveUrl := v)
    case GithubUrl => f.(githubUrl := v)
  }

  /** The submit button's label: a spinner while saving, otherwise the kind of save. */
  function SubmitLabel(saving: bool, editing: bool): (text: string)
    ensures saving <==> text == "Saving..."
    ensures !saving ==> (text == "Update" <==> editing)
  {
    if saving then "Saving..." else if editing then "Update" else "Create"
  }

  /** The modal's state cells. Whether it is open, which project it edits and what
      saving does belong to the dashboard that renders it. */
  class FormModal {
    var form: Form
    var saving: bool

    constructor ()
      ensures form == BlankForm && !saving
    {
      form, saving := BlankForm, false;
    }

    /** The effect run whenever the edited project or the open flag changes. */
    method Reset(editProject: Option<Project>)
      modifies this
      ensures form == FormFor(editProject) && saving == old(saving)
    {
      form := FormFor(editProject);
    }

    method Change(field: Field, v: string)
      modifies this
      ensures form == WithField(old(form), field, v) && saving == old(saving)
    {
      form := WithField(form, field, v);
    }

    /** The first half of the submit handler, up to the awaited save: `saving` goes
        up and the save is requested with the payload and the edited project's id. */
    method BeginSubmit(editProject: Option<Project>) returns (payload: Payload, id: Option<string>)
      modifies this
      ensures saving && form == old(form)
      ensures payload == MakePayload(old(form))
      ensures id == (if editProject.Some? then Some(editProject.value.id) else None)
    {
      saving := true;
      payload := MakePayload(form);
      id := if editProject.Some? then Some(editProject.value.id) else None;
    }

    /** The second half, once the save has completed: `saving` goes down. The
        handler then calls the dashboard's close callback. */
    method EndSubmit()
      modifies this
      ensures !saving && form == old(form)
    {
      saving := false;
    }
  }
}
