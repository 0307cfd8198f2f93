/** Recognising the player character and guaranteeing that a roster has one (App.tsx). */
module Player {
  import opened Types

  /** The character appended when the generator names no player. */
  const PLAYER := Character("You", "The protagonist of this story.",
                            "https://picsum.photos/seed/protagonist/200/200")

  /** ASCII lower-casing of one character. */
  function LowerChar(ch: char): char {
    if 'A' <= ch <= 'Z' then (ch as int + 32) as char else ch
  }

  /** `toLowerCase`, restricted to ASCII: no other character lower-cases to 'y', 'o' or 'u'. */
  function ToLower(s: string): (r: string)
    ensures |r| == |s|
    ensures forall i :: 0 <= i < |s| ==> r[i] == LowerChar(s[i])
  {
    if s == [] then [] else [LowerChar(s[0])] + ToLower(s[1..])
  }

  /** `name.toLowerCase() === 'you'`. */
  predicate IsPlayer(name: string) {
    ToLower(name) == "you"
  }

  /** The player test accepts exactly the eight case spellings of "you". */
  lemma IsPlayerSpellings(name: string)
    ensures IsPlayer(name) <==>
      |name| == 3 && name[0] in "yY" && name[1] in "oO" && name[2] in "uU"
  {
    var low := ToLower(name);
    if |name| == 3 {
      assert low == [LowerChar(name[0]), LowerChar(name[1]), LowerChar(name[2])];
    } else {
      assert |low| != |"you"|;
    }
  }

  /** `characters.some(c => c.name.toLowerCase() === 'you')`. */
  predicate HasPlayer(chars: seq<Character>) {
    exists i :: 0 <= i < |chars| && IsPlayer(chars[i].name)
  }

  /**
   * The roster after the start-up fix: a roster with a player is kept as it is;
   * otherwise PLAYER is appended, and it is then the roster's only player.
   */
  function EnsurePlayer(chars: seq<Character>): (r: seq<Character>)
    ensures HasPlayer(r)
    ensures |chars| <= |r| <= |chars| + 1 && r[..|chars|] == chars
    ensures |r| == |chars| <==> HasPlayer(chars)
    ensures |r| > |chars| ==> r[|chars|] == PLAYER
    ensures !HasPlayer(chars) ==>
      forall i :: 0 <= i < |r| && IsPlayer(r[i].name) ==> i == |chars|
  {
    if HasPlayer(chars) then chars
    else
      IsPlayerSpellings(PLAYER.name);
      var r := chars + [PLAYER];
      assert IsPlayer(r[|chars|].name);
      r
  }
}
