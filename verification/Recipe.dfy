/**
 Run-length recipes: what a receiver's counters must be after a number of output actions.

 A recipe lists steps of identical actions.  Its meaning is the expanded list of actions;
 the program only ever walks the steps.
 */
module Recipe {
  import opened Common

  datatype Action = Corpus | Plc | Unknown
  datatype Step = Step(action: Action, count: nat)
  datatype Recipe = Recipe(steps: seq<Step>, outputActions: int, validFrames: int, samplesPerFrame: int)

  function Copies(a: Action, n: nat): seq<Action> { seq(n, _ => a) }

  function Expanded(steps: seq<Step>): (s: seq<Action>) {
    if steps == []
    then [] else Expanded(steps[..|steps| - 1]) + Copies(steps[|steps| - 1].action, steps[|steps| - 1].count)
  }

  function Count(s: seq<Action>, a: Action): (n: nat)
    ensures n <= |s|
  {
    if s == [] then 0 else Count(s[..|s| - 1], a) + if s[|s| - 1] == a then 1 else 0
  }

  lemma {:induction false} CountConcat(s: seq<Action>, t: seq<Action>, a: Action)
    ensures Count(s + t, a) == Count(s, a) + Count(t, a)
  {
    if t == [] {
      assert s + t == s;
    } else {
      CountConcat(s, t[..|t| - 1], a);
      assert (s + t)[..|s + t| - 1] == s + t[..|t| - 1];
    }
  }

  lemma {:induction false} CountCopies(a: Action, n: nat, b: Action)
    ensures Count(Copies(a, n), b) == if a == b then n else 0
  {
    if n > 0 {
      CountCopies(a, n - 1, b);
      assert Copies(a, n)[..n - 1] == Copies(a, n - 1);
    }
  }

  lemma {:induction false} ExpandedPrefix(steps: seq<Step>, k: nat)
    requires k <= |steps|
    ensures |Expanded(steps[..k])| <= |Expanded(steps)|
    ensures Expanded(steps)[..|Expanded(steps[..k])|] == Expanded(steps[..k])
    decreases |steps|
  {
    if k == |steps| {
      assert steps[..k] == steps;
    } else {
      assert steps[..|steps| - 1][..k] == steps[..k];
      ExpandedPrefix(steps[..|steps| - 1], k);
    }
  }

  /** The walk looks at a step when it is the first, or when the ones before it do not suffice. */
  predicate Touched(steps: seq<Step>, i: nat, actions: int) requires i <= |steps| {
    i == 0 || |Expanded(steps[..i])| < actions
  }

  /** When the counts of a prefix exist. */
  predicate Countable(recipe: Recipe, actions: int) {
    && 0 <= actions <= recipe.outputActions && actions <= |Expanded(recipe.steps)|
    && forall i | 0 <= i < |recipe.steps| && Touched(recipe.steps, i, actions) :: recipe.steps[i].action != Unknown
  }

  ghost predicate Consumed(steps: seq<Step>, i: nat, actions: nat, remaining: nat, valid: nat, plc: nat) {
    && i <= |steps| && remaining <= actions
    && (forall k | 0 <= k < i :: steps[k].action != Unknown)
    && actions - remaining == Min(actions, |Expanded(steps[..i])|)
    && |Expanded(steps[..i])| <= |Expanded(steps)|
    && valid == Count(Expanded(steps)[..actions - remaining], Corpus) &&
      plc == Count(Expanded(steps)[..actions - remaining], Plc)
  }

  /** One more step of the walk, in terms of the expansion. */
  lemma Walk(steps: seq<Step>, i: nat, done: nat, taken: nat)
    requires i < |steps| && done == |Expanded(steps[..i])| && taken <= steps[i].count
    ensures |Expanded(steps[..i + 1])| == done + steps[i].count <= |Expanded(steps)|
    ensures Expanded(steps)[..done + taken] == Expanded(steps)[..done] + Copies(steps[i].action, taken)
  {
    ExpandedPrefix(steps, i);
    ExpandedPrefix(steps, i + 1);
    var known := steps[..i + 1];
    assert known[..|known| - 1] == steps[..i];
    var longer := Expanded(known);
    assert longer == Expanded(steps[..i]) + Copies(steps[i].action, steps[i].count);
    assert Expanded(steps)[..done + taken] == longer[..done + taken];
    assert longer[..done + taken] == longer[..done] + Copies(steps[i].action, taken);
  }

  lemma WalkCounts(steps: seq<Step>, i: nat, done: nat, taken: nat, a: Action)
    requires i < |steps| && done == |Expanded(steps[..i])| && taken <= steps[i].count
    ensures |Expanded(steps[..i + 1])| == done + steps[i].count <= |Expanded(steps)|
    ensures Count(Expanded(steps)[..done + taken], a) == Count(Expanded(steps)[..done], a) + if steps[i].action ==
      a then taken else 0
  {
    hide Expanded, Count;
    Walk(steps, i, done, taken);
    CountConcat(Expanded(steps)[..done], Copies(steps[i].action, taken), a);
    CountCopies(steps[i].action, taken, a);
  }

  /** `_recipe_prefix_counts`: the walk over the steps counts the expanded prefix. */
  method PrefixCounts(recipe: Recipe, actions: int) returns (r: Option<(nat, nat)>)
    ensures r.Some? <==> Countable(recipe, actions)
    ensures r.Some? ==>
      r.value == (Count(Expanded(recipe.steps)[..actions], Corpus), Count(Expanded(recipe.steps)[..actions], Plc))
  {
    hide Expanded, Count;
    if actions < 0 || actions > recipe.outputActions {
      return None;
    }
    var steps := recipe.steps;
    var remaining: nat, valid: nat, plc: nat := actions, 0, 0;
    var i := 0;
    Start(steps);
    while i < |steps|
      invariant 0 <= i <= |steps|
      invariant Consumed(steps, i, actions, remaining, valid, plc)
      invariant i == 0 || remaining > 0
    {
      var consumed := Min(remaining, steps[i].count);
      WalkCounts(steps, i, |Expanded(steps[..i])|, consumed, Corpus);
      WalkCounts(steps, i, |Expanded(steps[..i])|, consumed, Plc);
      match steps[i].action {
        case Corpus => valid := valid + consumed;
        case Plc => plc := plc + consumed;
        case Unknown =>
          assert Touched(steps, i, actions);
          return None;
      }
      remaining := remaining - consumed;
      i := i + 1;
      if remaining == 0 {
        break;
      }
    }
    if remaining == 0 {
      Finished(steps, i, actions);
      return Some((valid, plc));
    }
    assert steps[..|steps|] == steps;
    return None;
  }

  lemma Start(steps: seq<Step>)
    ensures Expanded(steps[..0]) == [] && Count([], Corpus) == 0 && Count([], Plc) == 0
    ensures Expanded(steps)[..0] == []
  {}

  /** Steps after the last one consumed are not touched. */
  lemma Finished(steps: seq<Step>, i: nat, actions: nat)
    requires i <= |steps| && actions <= |Expanded(steps[..i])|
    ensures forall k | i <= k < |steps| && k > 0 :: !Touched(steps, k, actions)
  {
    forall k | i <= k < |steps| && k > 0 ensures !Touched(steps, k, actions) {
      ExpandedPrefix(steps[..k], i);
      assert steps[..k][..i] == steps[..i];
    }
  }

  // ---- one channel of a segment ------------------------------------------

  datatype Channel = Channel(
    recipeId: string, actions: int, valid: int, plc: int, frames: int, samples: int, excluded: int,
    pushes: int, transients: int, samplesPerChannel: int)

  datatype Finding =
    | WrongRecipe | Geometry | ActionOverrun | StartupOverrun | ActionsMismatch | PrefixMismatch | FramesMismatch
    | PlcMismatch | StartupMismatch | ExcludedMismatch | ValidMismatch | PlcSumMismatch | SamplesMismatch | Incomplete

  function Unless(holds: bool, finding: Finding): seq<Finding> { if holds then [] else [finding] }

  /** PLC actions between two points of the expansion, negative when walked backwards. */
  function PlcBetween(s: seq<Action>, a: int, b: int): int
    requires 0 <= a <= |s| && 0 <= b <= |s|
  {
    if a <= b then Count(s[a..b], Plc) else 0 - Count(s[b..a], Plc)
  }

  /** Everything the record may say, given recipe, transients, pushes and samples per channel. */
  predicate Determined(table: map<string, Recipe>, c: Channel, expectedId: string, full: bool) {
    && c.recipeId == expectedId && expectedId in table
    && var recipe := table[expectedId];
    var s := Expanded(recipe.steps);
    && recipe.samplesPerFrame == c.samplesPerChannel
    && Countable(recipe, c.actions) && Countable(recipe, c.transients)
    && c.actions == c.transients + c.pushes
    && c.valid == c.frames == Count(s[..c.transients + c.pushes], Corpus)
    && c.plc == Count(s[..c.transients + c.pushes], Plc)
    && c.excluded == PlcBetween(s, c.transients, c.transients + c.pushes)
    && c.samples == c.frames * c.samplesPerChannel
    && (full ==> c.actions == recipe.outputActions && c.valid == recipe.validFrames)
  }

  lemma PlcDifference(s: seq<Action>, a: nat, b: nat)
    requires a <= |s| && b <= |s|
    ensures PlcBetween(s, a, b) == Count(s[..b], Plc) - Count(s[..a], Plc)
  {
    if a <= b {
      CountConcat(s[..a], s[a..b], Plc);
      assert s[..b] == s[..a] + s[a..b];
    } else {
      CountConcat(s[..b], s[b..a], Plc);
      assert s[..a] == s[..b] + s[b..a];
    }
  }

  predicate Known(s: seq<Action>) { forall i | 0 <= i < |s| :: s[i] != Unknown }

  lemma {:induction false} CountsCover(s: seq<Action>)
    requires Known(s)
    ensures Count(s, Corpus) + Count(s, Plc) == |s|
  {
    if s != [] {
      CountsCover(s[..|s| - 1]);
    }
  }

  lemma {:induction false} TouchedKnown(steps: seq<Step>, actions: nat)
    requires actions <= |Expanded(steps)|
    requires forall i | 0 <= i < |steps| && Touched(steps, i, actions) :: steps[i].action != Unknown
    ensures Known(Expanded(steps)[..actions])
    decreases |steps|
  {
    if steps != [] {
      var front, last := steps[..|steps| - 1], steps[|steps| - 1];
      assert Expanded(steps) == Expanded(front) + Copies(last.action, last.count);
      hide Expanded;
      var known := Expanded(front);
      var within := if actions <= |known| then actions else |known|;
      forall i | 0 <= i < |front| && Touched(front, i, within) ensures front[i].action != Unknown {
        assert front[..i] == steps[..i];
        assert Touched(steps, i, actions);
      }
      TouchedKnown(front, within);
      if actions > |known| {
        assert Touched(steps, |front|, actions);
        assert Expanded(steps)[..actions] == known + Copies(last.action, actions - |known|);
      } else {
        assert Expanded(steps)[..actions] == known[..actions];
      }
    }
  }

  lemma CountableCovers(recipe: Recipe, actions: int)
    requires Countable(recipe, actions)
    ensures Count(Expanded(recipe.steps)[..actions], Corpus) + Count(Expanded(recipe.steps)[..actions], Plc) == actions
  {
    TouchedKnown(recipe.steps, actions);
    CountsCover(Expanded(recipe.steps)[..actions]);
  }

  /** `_check_recipe_channel`: no finding exactly when the record is the determined one. */
  method CheckChannel(
    table: map<string, Recipe>, c: Channel, expectedId: string, full: bool)
    returns (findings: seq<Finding>)
    ensures findings == [] <==> Determined(table, c, expectedId, full)
    ensures StartupMismatch !in findings
    ensures (WrongRecipe in findings <==> c.recipeId != expectedId || expectedId !in table)
    ensures (WrongRecipe in findings ==> findings == [WrongRecipe])
  {
    hide Expanded, Count, Countable;
    if c.recipeId != expectedId || c.recipeId !in table {
      return [WrongRecipe];
    }
    var recipe := table[c.recipeId];
    findings := [];
    findings := findings + Unless(recipe.samplesPerFrame == c.samplesPerChannel, Geometry);
    var prefix := PrefixCounts(recipe, c.actions);
    if prefix.None? {
      return findings + [ActionOverrun];
    }
    var startup := PrefixCounts(recipe, c.transients);
    if startup.None? {
      return findings + [StartupOverrun];
    }
    Bounds(recipe, c.actions);
    Bounds(recipe, c.transients);
    CountableCovers(recipe, c.actions);
    CountableCovers(recipe, c.transients);
    PlcDifference(Expanded(recipe.steps), c.transients, c.actions);
    var (expectedValid, expectedPlc) := prefix.value;
    var (startupValid, startupPlc) := startup.value;
    findings := findings + Unless(c.actions == c.transients + c.pushes, ActionsMismatch);
    findings := findings + Unless(c.valid == expectedValid && c.plc == expectedPlc, PrefixMismatch);
    findings := findings + Unless(c.valid == c.frames, FramesMismatch);
    findings := findings + Unless(c.plc == c.actions - c.valid, PlcMismatch);
    findings := findings + Unless(startupValid + startupPlc == c.transients, StartupMismatch);
    findings := findings + Unless(c.excluded == c.plc - startupPlc, ExcludedMismatch);
    findings := findings + Unless(c.valid == startupValid + c.pushes - c.excluded, ValidMismatch);
    findings := findings + Unless(c.plc == startupPlc + c.excluded, PlcSumMismatch);
    findings := findings + Unless(c.samples == c.frames * c.samplesPerChannel, SamplesMismatch);
    var complete := c.actions == recipe.outputActions && c.valid == recipe.validFrames &&
      c.plc == recipe.outputActions - recipe.validFrames;
    findings := findings + Unless(full ==> complete, Incomplete);
  }

  lemma Bounds(recipe: Recipe, actions: int)
    requires Countable(recipe, actions)
    ensures 0 <= actions <= |Expanded(recipe.steps)|
  {}
}
