/**
 * The relationship scores: seeded at story start with every non-player name
 * at 0 (App.tsx, handleStartGame) and updated additively by a choice's effects
 * (App.tsx, handleChoice). A name that is not already a key is ignored.
 */
module Ledger {
  import opened Types
  import opened Player

  /** The names of the roster's non-player characters. */
  function NonPlayerNames(chars: seq<Character>): set<string> {
    set c | c in chars && !IsPlayer(c.name) :: c.name
  }

  /** Scores as a new story seeds them: one key per non-player name, each at 0. */
  predicate SeededFor(scores: RelationshipScores, chars: seq<Character>) {
    scores.Keys == NonPlayerNames(chars) && forall n :: n in scores ==> scores[n] == 0
  }

  /** The seeding determines the scores completely. */
  lemma SeededUnique(a: RelationshipScores, b: RelationshipScores, chars: seq<Character>)
    requires SeededFor(a, chars) && SeededFor(b, chars)
    ensures a == b
  {
    forall n | n in a ensures n in b && a[n] == b[n] { }
  }

  /** The `forEach` over the roster that builds the initial scores. */
  method InitialScores(chars: seq<Character>) returns (scores: RelationshipScores)
    ensures SeededFor(scores, chars)
    ensures forall n :: n in scores ==> !IsPlayer(n)
    ensures forall c :: c in chars && !IsPlayer(c.name) ==> c.name in scores
  {
    scores := map[];
    for i := 0 to |chars|
      invariant scores.Keys == NonPlayerNames(chars[..i])
      invariant forall n :: n in scores ==> scores[n] == 0
    {
      assert chars[..i + 1] == chars[..i] + [chars[i]];
      if !IsPlayer(chars[i].name) {
        scores := scores[chars[i].name := 0];
      }
    }
    assert chars[..|chars|] == chars;
  }

  /** One effect: its change is added to its character's score when that name is a key. */
  function Step(scores: RelationshipScores, e: RelationshipEffect): RelationshipScores {
    if e.character in scores then scores[e.character := scores[e.character] + e.change]
    else scores
  }

  /** Effects applied one after another in list order. */
  function Applied(scores: RelationshipScores, effects: seq<RelationshipEffect>): (r: RelationshipScores)
    ensures r.Keys == scores.Keys
    decreases |effects|
  {
    if effects == [] then scores
    else Step(Applied(scores, effects[..|effects| - 1]), effects[|effects| - 1])
  }

  /** The sum of the changes the effects carry for one name. */
  function ChangeFor(effects: seq<RelationshipEffect>, name: string): int
    decreases |effects|
  {
    if effects == [] then 0
    else
      var last := effects[|effects| - 1];
      ChangeFor(effects[..|effects| - 1], name) + (if last.character == name then last.change else 0)
  }

  /** Closed form of the effects: every key gains the sum of the changes naming it, and nothing else changes. */
  lemma {:induction false} AppliedClosedForm(scores: RelationshipScores, effects: seq<RelationshipEffect>)
    ensures Applied(scores, effects) == map k | k in scores :: scores[k] + ChangeFor(effects, k)
    decreases |effects|
  {
    if effects != [] {
      AppliedClosedForm(scores, effects[..|effects| - 1]);
    }
  }

  lemma {:induction false} ChangeForConcat(a: seq<RelationshipEffect>, b: seq<RelationshipEffect>, name: string)
    ensures ChangeFor(a + b, name) == ChangeFor(a, name) + ChangeFor(b, name)
    decreases |b|
  {
    if b != [] {
      assert (a + b)[..|a + b| - 1] == a + b[..|b| - 1];
      ChangeForConcat(a, b[..|b| - 1], name);
    } else {
      assert a + b == a;
    }
  }

  /** Applying two lists in turn is applying their concatenation. */
  lemma {:induction false} AppliedConcat(scores: RelationshipScores, a: seq<RelationshipEffect>, b: seq<RelationshipEffect>)
    ensures Applied(Applied(scores, a), b) == Applied(scores, a + b)
    decreases |b|
  {
    if b == [] {
      assert a + b == a;
    } else {
      assert (a + b)[..|a + b| - 1] == a + b[..|b| - 1];
      AppliedConcat(scores, a, b[..|b| - 1]);
    }
  }

  /** The change carried for a name depends only on the multiset of effects, not on their order. */
  lemma {:induction false} ChangeForPermutation(a: seq<RelationshipEffect>, b: seq<RelationshipEffect>, name: string)
    requires multiset(a) == multiset(b)
    ensures ChangeFor(a, name) == ChangeFor(b, name)
    decreases |a|
  {
    if a == [] {
      assert |b| == |multiset(b)| == 0;
    } else {
      var n := |a|;
      var last, init := a[n - 1], a[..n - 1];
      assert a == init + [last];
      assert last in multiset(b);
      var j :| 0 <= j < |b| && b[j] == last;
      var left, right := b[..j], b[j + 1..];
      assert b == left + [last] + right;
      var rest := left + right;
      calc {
        multiset(init) + multiset{last};
        multiset(a);
        multiset(b);
        multiset(left) + multiset{last} + multiset(right);
        multiset(rest) + multiset{last};
      }
      assert multiset(init) == multiset(init) + multiset{last} - multiset{last};
      assert multiset(rest) == multiset(rest) + multiset{last} - multiset{last};
      ChangeForPermutation(init, rest, name);
      ChangeForConcat(init, [last], name);
      ChangeForConcat(left + [last], right, name);
      ChangeForConcat(left, [last], name);
      ChangeForConcat(left, right, name);
      assert [last][..0] == [];
    }
  }

  /** The final scores do not depend on the order of the effects: any reordering gives the same scores. */
  lemma AppliedOrderIrrelevant(scores: RelationshipScores, a: seq<RelationshipEffect>, b: seq<RelationshipEffect>)
    requires multiset(a) == multiset(b)
    ensures Applied(scores, a) == Applied(scores, b)
  {
    var l, r := Applied(scores, a), Applied(scores, b);
    AppliedClosedForm(scores, a);
    AppliedClosedForm(scores, b);
    forall k | k in scores ensures l[k] == r[k] {
      ChangeForPermutation(a, b, k);
    }
  }

  /** In particular, two blocks of effects may be swapped. */
  lemma AppliedSwapBlocks(scores: RelationshipScores, a: seq<RelationshipEffect>, b: seq<RelationshipEffect>)
    ensures Applied(scores, a + b) == Applied(scores, b + a)
  {
    assert multiset(a + b) == multiset(b + a);
    AppliedOrderIrrelevant(scores, a + b, b + a);
  }

  lemma {:induction false} ChangeForAbsent(effects: seq<RelationshipEffect>, name: string)
    requires forall i :: 0 <= i < |effects| ==> effects[i].character != name
    ensures ChangeFor(effects, name) == 0
    decreases |effects|
  {
    if effects != [] {
      ChangeForAbsent(effects[..|effects| - 1], name);
    }
  }

  /** Effects that name no key leave the scores exactly as they were. */
  lemma {:induction false} UnknownNamesIgnored(scores: RelationshipScores, effects: seq<RelationshipEffect>)
    requires forall i :: 0 <= i < |effects| ==> effects[i].character !in scores
    ensures Applied(scores, effects) == scores
  {
    AppliedClosedForm(scores, effects);
    forall k | k in scores ensures ChangeFor(effects, k) == 0 {
      ChangeForAbsent(effects, k);
    }
  }

  /** The `forEach` over a choice's effects, on a copy of the previous scores. */
  method ApplyEffects(scores: RelationshipScores, effects: seq<RelationshipEffect>)
    returns (r: RelationshipScores)
    ensures r == Applied(scores, effects)
    ensures r.Keys == scores.Keys
    ensures forall k :: k in r ==> r[k] == scores[k] + ChangeFor(effects, k)
  {
    r := scores;
    for i := 0 to |effects|
      invariant r == Applied(scores, effects[..i])
    {
      assert effects[..i + 1][..i] == effects[..i];
      var e := effects[i];
      if e.character in r {
        r := r[e.character := r[e.character] + e.change];
      }
    }
    assert effects[..|effects|] == effects;
    AppliedClosedForm(scores, effects);
  }
}
