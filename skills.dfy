/** The skills section: skill rows fetched from the data store are grouped by
    category into tabs; the built-in groups stay when the fetch yields nothing. */
module Skills {
  import opened Common

  /** A row of the `skills` table; only the columns the section reads. */
  datatype SkillRow = SkillRow(name: string, level: int, category: Option<string>)

  /** One entry of a group, as the section keeps it. */
  datatype Skill = Skill(name: string, level: int)

  /** The group a row goes into: its category, or `'Other'` when that is missing
      or empty. */
  function CategoryOf(r: SkillRow): string
  {
    OrDefault(r.category, "Other")
  }

  function EntryOf(r: SkillRow): Skill
  {
    Skill(r.name, r.level)
  }

  // ---------------------------------------------------------------------------
  // The grouping, defined row by row from the front of the list as the loop runs

  /** The group names in the order the grouping object acquires them. */
  function Keys(data: seq<SkillRow>): seq<string>
  {
    if data == [] then []
    else
      var ks := Keys(data[..|data| - 1]);
      var c := CategoryOf(data[|data| - 1]);
      if c in ks then ks else ks + [c]
  }

  /** The entries of group `k`, in row order. */
  function Members(data: seq<SkillRow>, k: string): seq<Skill>
  {
    if data == [] then []
    else
      Members(data[..|data| - 1], k)
      + (if CategoryOf(data[|data| - 1]) == k then [EntryOf(data[|data| - 1])] else [])
  }

  function Grouping(data: seq<SkillRow>): map<string, seq<Skill>>
  {
    map k | k in Keys(data) :: Members(data, k)
  }

  predicate Distinct(ks: seq<string>)
  {
    forall i, j | 0 <= i < j < |ks| :: ks[i] != ks[j]
  }

  /** Number of entries over groups `ks`. */
  function Total(data: seq<SkillRow>, ks: seq<string>): nat
  {
    if ks == [] then 0 else Total(data, ks[..|ks| - 1]) + |Members(data, ks[|ks| - 1])|
  }

  // ---------------------------------------------------------------------------
  // The loop

  lemma Snoc(data: seq<SkillRow>, r: SkillRow)
    ensures (data + [r])[..|data|] == data && (data + [r])[|data|] == r
  {
  }

  lemma {:induction false} MembersOutsideKeys(data: seq<SkillRow>, k: string)
    requires k !in Keys(data)
    ensures Members(data, k) == []
  {
    if data != [] {
      MembersOutsideKeys(data[..|data| - 1], k);
    }
  }

  /** Adding one row appends its entry to its group, creating the group first when
      the name is new. */
  lemma GroupingStep(data: seq<SkillRow>, r: SkillRow)
    ensures var g := Grouping(data); var c := CategoryOf(r);
      Grouping(data + [r]) == g[c := (if c in g then g[c] else []) + [EntryOf(r)]]
  {
    var g := Grouping(data);
    var c := CategoryOf(r);
    var d := data + [r];
    Snoc(data, r);
    assert Keys(d) == if c in Keys(data) then Keys(data) else Keys(data) + [c];
    assert forall k :: Members(d, k) == Members(data, k) + (if c == k then [EntryOf(r)] else []);
    if c !in Keys(data) {
      MembersOutsideKeys(data, c);
    }
    var expected := g[c := (if c in g then g[c] else []) + [EntryOf(r)]];
    assert forall k :: k in Grouping(d) <==> k in expected;
    assert forall k | k in expected :: Grouping(d)[k] == expected[k];
  }

  /** The properties every plain object inherits from `Object.prototype`. For such
      a category `grouped[cat]` is already truthy (an inherited method, or the
      prototype itself for `__proto__`), so the group is not created, and
      `grouped[cat].push` is not a function: the loop throws a TypeError. */
  const InheritedNames: set<string> := {
    "constructor", "hasOwnProperty", "isPrototypeOf", "propertyIsEnumerable",
    "toLocaleString", "toString", "valueOf", "__proto__",
    "__defineGetter__", "__defineSetter__", "__lookupGetter__", "__lookupSetter__"}

  /** Some row's category names an inherited property, so grouping throws. */
  predicate Throws(data: seq<SkillRow>)
  {
    exists i | 0 <= i < |data| :: CategoryOf(data[i]) in InheritedNames
  }

  /** A `toString` row throws and so keeps the defaults, wherever it sits;
      a row without a category goes to `'Other'`, which is an own key. */
  lemma InheritedCategoryThrows(before: seq<SkillRow>, after: seq<SkillRow>)
    ensures Throws(before + [SkillRow("Git", 80, Some("toString"))] + after)
    ensures CategoryOf(SkillRow("Git", 80, None)) !in InheritedNames
  {
    var data := before + [SkillRow("Git", 80, Some("toString"))] + after;
    assert data[|before|] == SkillRow("Git", 80, Some("toString"));
  }

  /** The `forEach` loop filling `grouped` one row at a time, with the order in
      which its keys appeared; `thrown` reports the TypeError of a row whose
      category is an inherited property name. */
  method GroupSkills(data: seq<SkillRow>) returns (thrown: bool, keys: seq<string>, grouped: map<string, seq<Skill>>)
    ensures thrown <==> Throws(data)
    ensures !thrown ==> keys == Keys(data) && grouped == Grouping(data)
  {
    thrown, keys, grouped := false, [], map[];
    var i := 0;
    while i < |data| && !thrown
      invariant 0 <= i <= |data|
      invariant !thrown ==> keys == Keys(data[..i]) && grouped == Grouping(data[..i]) && !Throws(data[..i])
      invariant thrown ==> Throws(data)
      decreases |data| - i, if thrown then 0 else 1
    {
      var s := data[i];
      var cat := OrDefault(s.category, "Other");
      if cat in InheritedNames {
        thrown := true;
      } else {
        GroupingStep(data[..i], s);
        assert data[..i + 1] == data[..i] + [s];
        Snoc(data[..i], s);
        if cat !in grouped {
          grouped := grouped[cat := []];
          keys := keys + [cat];
        }
        grouped := grouped[cat := grouped[cat] + [Skill(s.name, s.level)]];
        i := i + 1;
      }
    }
    if !thrown {
      assert data[..i] == data;
    }
  }

  // ---------------------------------------------------------------------------
  // Properties of the grouping

  /** Each group name appears once. */
  lemma {:induction false} KeysDistinct(data: seq<SkillRow>)
    ensures Distinct(Keys(data))
  {
    if data != [] {
      KeysDistinct(data[..|data| - 1]);
    }
  }

  /** The group names are exactly the rows' categories (with `'Other'` for the
      rows without one). */
  lemma {:induction false} KeysAreCategories(data: seq<SkillRow>, k: string)
    ensures k in Keys(data) <==> exists i | 0 <= i < |data| :: CategoryOf(data[i]) == k
  {
    if data != [] {
      var init := data[..|data| - 1];
      KeysAreCategories(init, k);
      if k in Keys(init) {
        var i :| 0 <= i < |init| && CategoryOf(init[i]) == k;
        assert data[i] == init[i];
      }
      if exists i | 0 <= i < |data| :: CategoryOf(data[i]) == k {
        var i :| 0 <= i < |data| && CategoryOf(data[i]) == k;
        if i < |init| {
          assert init[i] == data[i];
        }
      }
    }
  }

  /** Group names appear in order of first occurrence: the names seen in the first
      `n` rows come first, in the same order. */
  lemma {:induction false} KeysGrowByPrefix(data: seq<SkillRow>, n: nat)
    requires n <= |data|
    ensures Keys(data[..n]) <= Keys(data)
    decreases |data| - n
  {
    if n < |data| {
      assert data[..n] == data[..n + 1][..n];
      KeysGrowByPrefix(data, n + 1);
    } else {
      assert data[..n] == data;
    }
  }

  /** The tab the section opens on after a fetch, the first key, is the category of
      the first row. */
  lemma FirstKeyIsFirstRow(data: seq<SkillRow>)
    requires |data| > 0
    ensures |Keys(data)| > 0 && Keys(data)[0] == CategoryOf(data[0])
  {
    KeysGrowByPrefix(data, 1);
    assert data[..1][..0] == [];
  }

  /** Within a group rows keep their order: the entries from the first `n` rows
      come first. */
  lemma {:induction false} MembersGrowByPrefix(data: seq<SkillRow>, k: string, n: nat)
    requires n <= |data|
    ensures Members(data[..n], k) <= Members(data, k)
    decreases |data| - n
  {
    if n < |data| {
      assert data[..n] == data[..n + 1][..n];
      MembersGrowByPrefix(data, k, n + 1);
    } else {
      assert data[..n] == data;
    }
  }

  /** Every row's entry is in its own group, and a group holds only entries of rows
      in that category. */
  lemma {:induction false} MembersAreRowsOfCategory(data: seq<SkillRow>, k: string)
    ensures forall i | 0 <= i < |data| && CategoryOf(data[i]) == k :: EntryOf(data[i]) in Members(data, k)
    ensures forall e | e in Members(data, k) ::
      exists i | 0 <= i < |data| :: CategoryOf(data[i]) == k && EntryOf(data[i]) == e
  {
    if data != [] {
      var init := data[..|data| - 1];
      MembersAreRowsOfCategory(init, k);
      forall i | 0 <= i < |data| && CategoryOf(data[i]) == k
        ensures EntryOf(data[i]) in Members(data, k)
      {
        if i < |init| {
          assert data[i] == init[i];
        }
      }
      forall e | e in Members(data, k)
        ensures exists i | 0 <= i < |data| :: CategoryOf(data[i]) == k && EntryOf(data[i]) == e
      {
        if e in Members(init, k) {
          var i :| 0 <= i < |init| && CategoryOf(init[i]) == k && EntryOf(init[i]) == e;
          assert data[i] == init[i];
        } else {
          assert CategoryOf(data[|data| - 1]) == k && EntryOf(data[|data| - 1]) == e;
        }
      }
    }
  }

  lemma {:induction false} TotalOutside(data: seq<SkillRow>, r: SkillRow, ks: seq<string>)
    requires CategoryOf(r) !in ks
    ensures Total(data + [r], ks) == Total(data, ks)
  {
    Snoc(data, r);
    if ks != [] {
      TotalOutside(data, r, ks[..|ks| - 1]);
    }
  }

  lemma {:induction false} TotalInside(data: seq<SkillRow>, r: SkillRow, ks: seq<string>)
    requires Distinct(ks) && CategoryOf(r) in ks
    ensures Total(data + [r], ks) == Total(data, ks) + 1
  {
    Snoc(data, r);
    var init := ks[..|ks| - 1];
    if ks[|ks| - 1] == CategoryOf(r) {
      assert CategoryOf(r) !in init;
      TotalOutside(data, r, init);
    } else {
      assert CategoryOf(r) in init;
      TotalInside(data, r, init);
    }
  }

  /** Grouping loses and duplicates nothing: the group sizes add up to the number
      of rows. */
  lemma {:induction false} GroupSizesSumToRows(data: seq<SkillRow>)
    ensures Total(data, Keys(data)) == |data|
  {
    if data != [] {
      var init := data[..|data| - 1];
      var r := data[|data| - 1];
      assert data == init + [r];
      GroupSizesSumToRows(init);
      KeysDistinct(init);
      var c := CategoryOf(r);
      if c in Keys(init) {
        TotalInside(init, r, Keys(init));
      } else {
        TotalOutside(init, r, Keys(init));
        MembersOutsideKeys(init, c);
        var ks := Keys(init) + [c];
        assert ks[..|ks| - 1] == Keys(init);
      }
    }
  }

  // ---------------------------------------------------------------------------
  // The section

  datatype Colors = Colors(ring: string, trail: string)

  /** The colour of a tab, falling back to the Frontend colours for a category
      without an entry of its own. */
  function CategoryColor(cat: string): (c: Colors)
    ensures cat !in {"Backend", "Tools", "Technologies"} ==> c == Colors("#8b5cf6", "#8b5cf680")
  {
    if cat == "Backend" then Colors("#06b6d4", "#06b6d480")
    else if cat == "Tools" then Colors("#f59e0b", "#f59e0b80")
    else if cat == "Technologies" then Colors("#10b981", "#10b98180")
    else Colors("#8b5cf6", "#8b5cf680")
  }

  /** `skills[activeCategory] || []`. */
  function VisibleSkills(skills: map<string, seq<Skill>>, active: string): (r: seq<Skill>)
    ensures active !in skills ==> r == []
    ensures active in skills ==> r == skills[active]
  {
    if active in skills then skills[active] else []
  }

  const DefaultOrder: seq<string> := ["Frontend", "Backend", "Tools", "Technologies"]

  const DefaultSkills: map<string, seq<Skill>> := map[
    "Frontend" := [Skill("React.js", 85), Skill("JavaScript", 88), Skill("TypeScript", 75),
                   Skill("HTML/CSS", 97), Skill("Tailwind CSS", 79)],
    "Backend" := [Skill("Python", 85), Skill("Node.js", 80), Skill("FastAPI", 78),
                  Skill("PostgreSQL", 75), Skill("REST APIs", 88)],
    "Tools" := [Skill("Git/GitHub", 85), Skill("VS Code", 95), Skill("Antigravity", 65),
                Skill("Figma", 60), Skill("Thinker cart", 70)],
    "Technologies" := [Skill("Supabase", 80), Skill("Vercel", 85), Skill("Netlify", 70)]]

  /** The section's state cells; `order` is the key order of the `skills` object,
      which its tabs follow. */
  class SkillsSection {
    var skills: map<string, seq<Skill>>
    var order: seq<string>
    var activeCategory: string

    ghost predicate Valid()
      reads this
    {
      (forall k :: k in skills <==> k in order) && Distinct(order)
    }

    constructor ()
      ensures Valid()
      ensures skills == DefaultSkills && order == DefaultOrder && activeCategory == "Frontend"
    {
      skills, order, activeCategory := DefaultSkills, DefaultOrder, "Frontend";
    }

    /** The fetch's completion: rows replace the groups and open the first tab; an
        error, null or empty data, an exception from the call, or the TypeError
        grouping throws (caught by the same `catch`) leaves everything as it was. */
    method ApplyFetch(result: Fetched<SkillRow>)
      requires Valid()
      modifies this
      ensures Valid()
      ensures HasRows(result) && !Throws(result.data.value) ==>
        skills == Grouping(result.data.value) && order == Keys(result.data.value)
        && activeCategory == CategoryOf(result.data.value[0])
      ensures !HasRows(result) || Throws(result.data.value) ==>
        skills == old(skills) && order == old(order) && activeCategory == old(activeCategory)
    {
      if result.Response? && !result.error && result.data.Some? && |result.data.value| > 0 {
        var data := result.data.value;
        var thrown, keys, grouped := GroupSkills(data);
        if !thrown {
          KeysDistinct(data);
          FirstKeyIsFirstRow(data);
          skills := grouped;
          order := keys;
          activeCategory := keys[0];
        }
      }
    }

    /** A tab click. */
    method SelectCategory(cat: string)
      modifies this
      ensures activeCategory == cat && skills == old(skills) && order == old(order)
    {
      activeCategory := cat;
    }

    function Visible(): seq<Skill>
      reads this
    {
      VisibleSkills(skills, activeCategory)
    }
  }
}
