/** The typewriter effect of the home section: the hero line types one of
    three role titles character by character, pauses, deletes it character
    by character and moves on to the next title, for ever.

    The transition function is stated for any non-empty list of roles, as the
    callback only uses `roles[currentRoleIndex]` and `roles.length`; the
    component instantiates it with `Roles`. */
module Home {

  const Roles: seq<string> := ["Full Stack Developer", "Software Engineer", "Programmer"]

  /** Timer delays in milliseconds. */
  const TypingDelay: nat := 100
  const DeletingDelay: nat := 50
  const PauseDelay: nat := 2000

  /** The three pieces of hook state: `currentRoleIndex`, `displayedText`, `isDeleting`. */
  datatype TypewriterState = TypewriterState(roleIndex: nat, text: string, deleting: bool)

  const Initial: TypewriterState := TypewriterState(0, "", false)

  /** What every reachable state satisfies: the index names a role and the text is a prefix of it. */
  predicate Valid(roles: seq<string>, s: TypewriterState) {
    s.roleIndex < |roles| && s.text <= roles[s.roleIndex]
  }

  /** `str.slice(0, end)` for a non-negative end: the end is clamped to the length. */
  function Slice(str: string, end: nat): (r: string)
    ensures r <= str
    ensures |r| == if end <= |str| then end else |str|
  {
    if end <= |str| then str[..end] else str
  }

  /** The delay before the transition out of `s` happens: the timer of the effect
      (50 ms while deleting, 100 ms otherwise), plus the 2000 ms pause timer that
      a tick on a fully typed role schedules. */
  function Delay(roles: seq<string>, s: TypewriterState): (ms: nat)
    requires s.roleIndex < |roles|
    ensures ms == (if s.deleting then DeletingDelay else TypingDelay)
                + (if !s.deleting && Step(roles, s).deleting then PauseDelay else 0)
  {
    if s.deleting then DeletingDelay
    else if |s.text| < |roles[s.roleIndex]| then TypingDelay
    else TypingDelay + PauseDelay
  }

  /** One transition of the effect: type, pause, delete or advance. */
  function Step(roles: seq<string>, s: TypewriterState): (r: TypewriterState)
    requires s.roleIndex < |roles|
    ensures r.roleIndex < |roles|
    ensures Valid(roles, s) ==> Valid(roles, r)
  {
    var role := roles[s.roleIndex];
    if !s.deleting then
      if |s.text| < |role| then s.(text := Slice(role, |s.text| + 1))
      else s.(deleting := true)
    else
      if |s.text| > 0 then s.(text := Slice(role, |s.text| - 1))
      else s.(roleIndex := (s.roleIndex + 1) % |roles|, deleting := false)
  }

  /** The state after `n` transitions. */
  function Run(roles: seq<string>, s: TypewriterState, n: nat): (r: TypewriterState)
    requires s.roleIndex < |roles|
    ensures r.roleIndex < |roles|
    ensures Valid(roles, s) ==> Valid(roles, r)
    decreases n
  {
    if n == 0 then s else Run(roles, Step(roles, s), n - 1)
  }

  /** The time the first `n` transitions take, in milliseconds. */
  function Elapsed(roles: seq<string>, s: TypewriterState, n: nat): nat
    requires s.roleIndex < |roles|
    decreases n
  {
    if n == 0 then 0 else Delay(roles, s) + Elapsed(roles, Step(roles, s), n - 1)
  }

  lemma InitialValid()
    ensures Valid(Roles, Initial)
  {
  }

  /** A typing tick on an unfinished role adds exactly the next character of the role. */
  lemma TypeTick(roles: seq<string>, s: TypewriterState)
    requires Valid(roles, s) && !s.deleting && |s.text| < |roles[s.roleIndex]|
    ensures Step(roles, s) == s.(text := s.text + [roles[s.roleIndex][|s.text|]])
    ensures |Step(roles, s).text| == |s.text| + 1 <= |roles[s.roleIndex]|
    ensures Delay(roles, s) == TypingDelay
  {
    var role := roles[s.roleIndex];
    assert s.text == role[..|s.text|];
    assert role[..|s.text| + 1] == role[..|s.text|] + [role[|s.text|]];
  }

  /** Once the role is fully typed the text is left alone; the pause only sets the deleting flag. */
  lemma PauseWhenComplete(roles: seq<string>, s: TypewriterState)
    requires Valid(roles, s) && !s.deleting && |s.text| == |roles[s.roleIndex]|
    ensures s.text == roles[s.roleIndex]
    ensures Step(roles, s) == s.(deleting := true)
    ensures Delay(roles, s) == TypingDelay + PauseDelay
  {
  }

  /** A deleting tick on a non-empty text removes exactly its last character and keeps the index. */
  lemma DeleteTick(roles: seq<string>, s: TypewriterState)
    requires Valid(roles, s) && s.deleting && |s.text| > 0
    ensures Step(roles, s) == s.(text := s.text[..|s.text| - 1])
    ensures Delay(roles, s) == DeletingDelay
  {
  }

  /** Deleting down to the empty text clears the flag and moves to the next of the three
      roles, wrapping from the last to the first. */
  lemma AdvanceWhenEmpty(s: TypewriterState)
    requires Valid(Roles, s) && s.deleting && s.text == ""
    ensures Step(Roles, s) == TypewriterState(if s.roleIndex == 2 then 0 else s.roleIndex + 1, "", false)
    ensures Delay(Roles, s) == DeletingDelay
  {
  }

  /** A single transition, as a run of length one. */
  lemma RunOne(roles: seq<string>, s: TypewriterState)
    requires s.roleIndex < |roles|
    ensures Run(roles, s, 1) == Step(roles, s) && Elapsed(roles, s, 1) == Delay(roles, s)
  {
    assert Run(roles, Step(roles, s), 0) == Step(roles, s);
  }

  /** Running `a + b` transitions is running `a` and then `b`. */
  lemma {:induction false} RunAdd(roles: seq<string>, s: TypewriterState, a: nat, b: nat)
    requires s.roleIndex < |roles|
    ensures Run(roles, s, a + b) == Run(roles, Run(roles, s, a), b)
    ensures Elapsed(roles, s, a + b) == Elapsed(roles, s, a) + Elapsed(roles, Run(roles, s, a), b)
    decreases a
  {
    if a > 0 {
      RunAdd(roles, Step(roles, s), a - 1, b);
    }
  }

  /** `k` typing ticks from the first `j` characters give the first `j + k`, 100 ms each. */
  lemma {:induction false} TypingPhase(roles: seq<string>, i: nat, j: nat, k: nat)
    requires i < |roles| && j + k <= |roles[i]|
    ensures Run(roles, TypewriterState(i, roles[i][..j], false), k) == TypewriterState(i, roles[i][..j + k], false)
    ensures Elapsed(roles, TypewriterState(i, roles[i][..j], false), k) == k * TypingDelay
    decreases k
  {
    if k > 0 {
      var s := TypewriterState(i, roles[i][..j], false);
      assert Step(roles, s) == TypewriterState(i, roles[i][..j + 1], false);
      TypingPhase(roles, i, j + 1, k - 1);
    }
  }

  /** `k` deleting ticks from the first `j` characters leave the first `j - k`, 50 ms each. */
  lemma {:induction false} DeletingPhase(roles: seq<string>, i: nat, j: nat, k: nat)
    requires i < |roles| && k <= j <= |roles[i]|
    ensures Run(roles, TypewriterState(i, roles[i][..j], true), k) == TypewriterState(i, roles[i][..j - k], true)
    ensures Elapsed(roles, TypewriterState(i, roles[i][..j], true), k) == k * DeletingDelay
    decreases k
  {
    if k > 0 {
      var s := TypewriterState(i, roles[i][..j], true);
      assert Step(roles, s) == TypewriterState(i, roles[i][..j - 1], true);
      DeletingPhase(roles, i, j - 1, k - 1);
    }
  }

  /** One whole cycle: from the empty text of role `i`, |role| typing ticks, the pause,
      |role| deleting ticks and the advance bring the effect to the empty text of the
      next role (the last wraps to the first); the cycle lasts 150 ms per character plus
      2150 ms. */
  lemma FullCycle(roles: seq<string>, i: nat)
    requires i < |roles|
    ensures Run(roles, TypewriterState(i, "", false), 2 * |roles[i]| + 2)
         == TypewriterState((i + 1) % |roles|, "", false)
    ensures Elapsed(roles, TypewriterState(i, "", false), 2 * |roles[i]| + 2)
         == |roles[i]| * (TypingDelay + DeletingDelay) + TypingDelay + PauseDelay + DeletingDelay
  {
    var role := roles[i];
    var n := |role|;
    var start := TypewriterState(i, "", false);
    var typed := TypewriterState(i, role, false);
    var paused := TypewriterState(i, role, true);
    var erased := TypewriterState(i, "", true);
    var next := TypewriterState((i + 1) % |roles|, "", false);

    assert Run(roles, start, n) == typed && Elapsed(roles, start, n) == n * TypingDelay by {
      assert role[..0] == "" && role[..n] == role;
      TypingPhase(roles, i, 0, n);
    }
    assert Run(roles, typed, 1) == paused && Elapsed(roles, typed, 1) == TypingDelay + PauseDelay by {
      RunOne(roles, typed);
    }
    assert Run(roles, paused, n) == erased && Elapsed(roles, paused, n) == n * DeletingDelay by {
      assert role[..n] == role && role[..n - n] == "";
      DeletingPhase(roles, i, n, n);
    }
    assert Run(roles, erased, 1) == next && Elapsed(roles, erased, 1) == DeletingDelay by {
      RunOne(roles, erased);
    }
    RunAdd(roles, start, n, 1);
    RunAdd(roles, start, n + 1, n);
    RunAdd(roles, start, 2 * n + 1, 1);
  }

  /** One more transition at the end of a run. */
  lemma RunSucc(roles: seq<string>, s: TypewriterState, k: nat)
    requires s.roleIndex < |roles|
    ensures Run(roles, s, k + 1) == Step(roles, Run(roles, s, k))
  {
    RunAdd(roles, s, k, 1);
    RunOne(roles, Run(roles, s, k));
  }

  /** With the roles ["A", "BB"] the text runs "A", "A" (pause), "", "" (advance), "B", "BB". */
  lemma TwoRoleScenario()
    ensures var roles := ["A", "BB"];
      var s0 := TypewriterState(0, "", false);
      Run(roles, s0, 1) == TypewriterState(0, "A", false) &&
      Run(roles, s0, 2) == TypewriterState(0, "A", true) &&
      Run(roles, s0, 3) == TypewriterState(0, "", true) &&
      Run(roles, s0, 4) == TypewriterState(1, "", false) &&
      Run(roles, s0, 5) == TypewriterState(1, "B", false) &&
      Run(roles, s0, 6) == TypewriterState(1, "BB", false)
  {
    var roles := ["A", "BB"];
    var s0 := TypewriterState(0, "", false);
    RunOne(roles, s0);
    assert Step(roles, s0) == TypewriterState(0, "A", false) by {
      assert roles[0][..1] == "A";
    }
    RunSucc(roles, s0, 1);
    RunSucc(roles, s0, 2);
    assert Step(roles, TypewriterState(0, "A", true)) == TypewriterState(0, "", true) by {
      assert roles[0][..0] == "";
    }
    RunSucc(roles, s0, 3);
    RunSucc(roles, s0, 4);
    assert Step(roles, TypewriterState(1, "", false)) == TypewriterState(1, "B", false) by {
      assert roles[1][..1] == "B";
    }
    RunSucc(roles, s0, 5);
    assert Step(roles, TypewriterState(1, "B", false)) == TypewriterState(1, "BB", false) by {
      assert roles[1][..2] == "BB";
    }
  }

  /** The hook state of the home section, advanced one timer callback at a time. */
  class Typewriter {
    var currentRoleIndex: nat
    var displayedText: string
    var isDeleting: bool

    function State(): TypewriterState
      reads this
    {
      TypewriterState(currentRoleIndex, displayedText, isDeleting)
    }

    predicate Invariant()
      reads this
    {
      Valid(Roles, State())
    }

    constructor ()
      ensures State() == Initial && Invariant()
    {
      currentRoleIndex := 0;
      displayedText := "";
      isDeleting := false;
    }

    /** The body of the timer callback (the fully typed case stands for the pause
        timer it schedules); `waited` is how long the timers ran before it. */
    method Tick() returns (waited: nat)
      requires Invariant()
      modifies this
      ensures Invariant()
      ensures State() == Step(Roles, old(State()))
      ensures waited == Delay(Roles, old(State()))
    {
      var currentRole := Roles[currentRoleIndex];
      waited := if isDeleting then DeletingDelay else TypingDelay;
      if !isDeleting {
        if |displayedText| < |currentRole| {
          displayedText := Slice(currentRole, |displayedText| + 1);
        } else {
          waited := waited + PauseDelay;
          isDeleting := true;
        }
      } else {
        if |displayedText| > 0 {
          displayedText := Slice(currentRole, |displayedText| - 1);
        } else {
          isDeleting := false;
          currentRoleIndex := (currentRoleIndex + 1) % |Roles|;
        }
      }
    }
  }
}
