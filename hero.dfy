/** The typewriter effect of the hero section: the headline types one of four
    roles a character at a time, holds it, deletes it a character at a time and
    moves on to the next role. */
module Hero {
  import Common

  const Roles: seq<string> :=
    ["Frond-end Developer", "Problem Solver", "Python Programmer", "Enthusiastic Learner"]

  /** An index into `Roles`; the machine never holds any other value. */
  type RoleIndex = i: int | 0 <= i < 4

  /** Hold time once a role is fully typed, and the per-character delays. */
  const HoldDelay: nat := 2000
  const TypeDelay: nat := 80
  const DeleteDelay: nat := 40

  /** The three state cells. */
  datatype State = State(roleIndex: RoleIndex, displayText: string, isDeleting: bool)

  const Initial: State := State(0, "", false)

  function Role(s: State): string
  {
    Roles[s.roleIndex]
  }

  /** JavaScript `s.substring(0, end)`: the end index is clamped into `[0, |s|]`. */
  function Substring(s: string, end: int): (r: string)
    ensures r <= s
    ensures |r| == if end < 0 then 0 else if end > |s| then |s| else end
  {
    s[..if end < 0 then 0 else if end > |s| then |s| else end]
  }

  /** Which of the effect's three branches a state takes; typing and deleting share
      the third branch and differ only in direction. */
  datatype Phase = Hold | Advance | Typing | Deleting

  function PhaseOf(s: State): Phase
  {
    if !s.isDeleting && s.displayText == Role(s) then Hold
    else if s.isDeleting && s.displayText == "" then Advance
    else if s.isDeleting then Deleting
    else Typing
  }

  /** The state after the effect has run once and its timeout (if any) has fired:
      the hold sets `isDeleting`, the advance clears it and moves to the next role
      at once, and the third branch retypes the role's prefix one longer or one
      shorter than the current text. */
  function Next(s: State): State
  {
    match PhaseOf(s)
    case Hold => s.(isDeleting := true)
    case Advance => State((s.roleIndex + 1) % |Roles|, "", false)
    case Deleting => s.(displayText := Substring(Role(s), |s.displayText| - 1))
    case Typing => s.(displayText := Substring(Role(s), |s.displayText| + 1))
  }

  /** The delay of the timeout the effect schedules; the advance schedules none and
      is applied without waiting, here given as 0. */
  function Delay(s: State): (d: nat)
    ensures PhaseOf(s) == Hold <==> d == HoldDelay
    ensures PhaseOf(s) == Advance <==> d == 0
    ensures PhaseOf(s) == Typing <==> d == TypeDelay
    ensures PhaseOf(s) == Deleting <==> d == DeleteDelay
  {
    match PhaseOf(s)
    case Hold => HoldDelay
    case Advance => 0
    case Typing => TypeDelay
    case Deleting => DeleteDelay
  }

  /** The displayed text is always a prefix of the current role. */
  ghost predicate Inv(s: State)
  {
    s.displayText <= Role(s)
  }

  /** `n` steps of the machine. */
  function Run(s: State, n: nat): State
    decreases n
  {
    if n == 0 then s else Run(Next(s), n - 1)
  }

  lemma NextPreservesInv(s: State)
    requires Inv(s)
    ensures Inv(Next(s))
  {
  }

  /** The hold changes nothing but the deleting flag. */
  lemma HoldOnlyStartsDeleting(s: State)
    requires !s.isDeleting && s.displayText == Role(s)
    ensures Next(s) == State(s.roleIndex, s.displayText, true)
  {
  }

  /** The role index changes only when deletion has emptied the text, and then it
      moves on by exactly one, wrapping after the last role. */
  lemma IndexAdvancesOnlyWhenEmptied(s: State)
    ensures Next(s).roleIndex != s.roleIndex <==> (s.isDeleting && s.displayText == "")
    ensures s.isDeleting && s.displayText == "" ==>
      Next(s).roleIndex == (s.roleIndex + 1) % 4 && Next(s).displayText == "" && !Next(s).isDeleting
  {
  }

  /** A typing step adds exactly one character and a deleting step removes exactly
      one, each keeping the text a prefix of the role. */
  lemma StepChangesLengthByOne(s: State)
    requires Inv(s)
    ensures PhaseOf(s) == Typing ==>
      |Next(s).displayText| == |s.displayText| + 1 && s.displayText < Next(s).displayText
    ensures PhaseOf(s) == Deleting ==>
      |Next(s).displayText| == |s.displayText| - 1 && Next(s).displayText < s.displayText
  {
  }

  lemma {:induction false} RunSucc(s: State, n: nat)
    ensures Run(s, n + 1) == Next(Run(s, n))
    decreases n
  {
    if n > 0 {
      RunSucc(Next(s), n - 1);
    }
  }

  lemma {:induction false} RunAdd(s: State, a: nat, b: nat)
    ensures Run(s, a + b) == Run(Run(s, a), b)
    decreases a
  {
    if a > 0 {
      RunAdd(Next(s), a - 1, b);
    }
  }

  /** Every state the machine reaches from the initial one keeps the invariant. */
  lemma {:induction false} ReachableInv(n: nat)
    ensures Inv(Run(Initial, n))
  {
    if n > 0 {
      ReachableInv(n - 1);
      RunSucc(Initial, n - 1);
      NextPreservesInv(Run(Initial, n - 1));
    }
  }

  /** Typing: starting from the empty text, after `k` steps the text is the
      role's first `k` characters and deletion has not begun. */
  lemma {:induction false} TypingPhase(i: RoleIndex, k: nat)
    requires k <= |Roles[i]|
    ensures Run(State(i, "", false), k) == State(i, Roles[i][..k], false)
  {
    if k > 0 {
      var r := Roles[i];
      TypingPhase(i, k - 1);
      RunSucc(State(i, "", false), k - 1);
      var s := State(i, r[..k - 1], false);
      assert s.displayText != r by {
        assert |s.displayText| != |r|;
      }
      assert PhaseOf(s) == Typing;
      assert Substring(r, k) == r[..k];
    }
  }

  /** Deleting: from the full role with deletion begun, after `k` steps the text
      is the role with its last `k` characters removed. */
  lemma {:induction false} DeletingPhase(i: RoleIndex, k: nat)
    requires k <= |Roles[i]|
    ensures Run(State(i, Roles[i], true), k) == State(i, Roles[i][..|Roles[i]| - k], true)
  {
    var r := Roles[i];
    if k == 0 {
      assert r[..|r|] == r;
    } else {
      DeletingPhase(i, k - 1);
      RunSucc(State(i, r, true), k - 1);
      var s := State(i, r[..|r| - (k - 1)], true);
      assert s.displayText != "";
      assert PhaseOf(s) == Deleting;
      assert Substring(r, |r| - (k - 1) - 1) == r[..|r| - k];
    }
  }

  /** One role's full cycle: from the empty text, the role is typed in full, held
      once, deleted in full, and the machine stands at the empty text of the next
      role, `2 * |role| + 2` steps later. */
  lemma RoleCycle(i: RoleIndex)
    ensures Run(State(i, "", false), |Roles[i]|) == State(i, Roles[i], false)
    ensures Run(State(i, "", false), |Roles[i]| + 1) == State(i, Roles[i], true)
    ensures Run(State(i, "", false), 2 * |Roles[i]| + 2) == State((i + 1) % 4, "", false)
  {
    var r := Roles[i];
    var start := State(i, "", false);
    TypingPhase(i, |r|);
    assert r[..|r|] == r;
    RunSucc(start, |r|);
    assert PhaseOf(State(i, r, false)) == Hold;
    DeletingPhase(i, |r|);
    RunAdd(start, |r| + 1, |r|);
    RunSucc(start, 2 * |r| + 1);
    assert PhaseOf(State(i, "", true)) == Advance;
  }

  /** Total length of one pass through all four roles. */
  const CycleLength: nat :=
    2 * |Roles[0]| + 2 + 2 * |Roles[1]| + 2 + 2 * |Roles[2]| + 2 + 2 * |Roles[3]| + 2

  /** The machine visits the roles in order and returns to its initial state after
      typing and deleting all four. */
  lemma FullCycle()
    ensures Run(Initial, CycleLength) == Initial
  {
    var a, b, c, d := 2 * |Roles[0]| + 2, 2 * |Roles[1]| + 2, 2 * |Roles[2]| + 2, 2 * |Roles[3]| + 2;
    RoleCycle(0);
    RoleCycle(1);
    RoleCycle(2);
    RoleCycle(3);
    RunAdd(Initial, a, b + c + d);
    RunAdd(State(1, "", false), b, c + d);
    RunAdd(State(2, "", false), c, d);
  }

  /** The component's three state cells and its one pending timeout. Running the
      effect first clears the old timeout (its cleanup), then either schedules a
      new one or, on the advance branch, updates the cells at once. */
  class Typewriter {
    var roleIndex: RoleIndex
    var displayText: string
    var isDeleting: bool
    /** Delay of the scheduled timeout, if one is pending. */
    var pending: Common.Option<nat>

    function Cells(): State
      reads this
    {
      State(roleIndex, displayText, isDeleting)
    }

    constructor ()
      ensures Cells() == Initial && pending == Common.None
    {
      roleIndex, displayText, isDeleting := 0, "", false;
      pending := Common.None;
    }

    /** The effect, run after every change of its three dependencies. */
    method RunEffect()
      modifies this
      ensures old(PhaseOf(Cells())) == Advance ==>
        Cells() == Next(old(Cells())) && pending == Common.None
      ensures old(PhaseOf(Cells())) != Advance ==>
        Cells() == old(Cells()) && pending == Common.Some(Delay(old(Cells())))
    {
      pending := Common.None;
      var role := Roles[roleIndex];
      if !isDeleting && displayText == role {
        pending := Common.Some(HoldDelay);
      } else if isDeleting && displayText == "" {
        isDeleting := false;
        roleIndex := (roleIndex + 1) % |Roles|;
      } else {
        pending := Common.Some(if isDeleting then DeleteDelay else TypeDelay);
      }
    }

    /** The pending timeout fires: the hold sets `isDeleting`, the other branch sets
      the retyped text. Nothing happens when no timeout is pending. */
    method FireTimeout()
      modifies this
      ensures old(pending).Some? ==> Cells() == Next(old(Cells())) && pending == Common.None
      ensures old(pending).None? ==> Cells() == old(Cells()) && pending == Common.None
    {
      if pending.Some? {
        var role := Roles[roleIndex];
        if !isDeleting && displayText == role {
          isDeleting := true;
        } else if isDeleting && displayText == "" {
          isDeleting := false;
          roleIndex := (roleIndex + 1) % |Roles|;
        } else if isDeleting {
          displayText := Substring(role, |displayText| - 1);
        } else {
          displayText := Substring(role, |displayText| + 1);
        }
        pending := Common.None;
      }
    }

    /** One tick: the effect runs and, unless it advanced at once, its timeout fires
      after `delay` milliseconds. */
    method Tick() returns (delay: nat)
      modifies this
      ensures Cells() == Next(old(Cells())) && pending == Common.None
      ensures delay == Delay(old(Cells()))
    {
      delay := Delay(Cells());
      RunEffect();
      if pending.Some? {
        FireTimeout();
      }
    }
  }
}
