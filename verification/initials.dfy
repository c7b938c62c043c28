/**
 * `getInitials`, as written in src/pages/admin/Users.tsx and src/pages/Profile.tsx:
 * split the name on single spaces, take the first character of every piece (an
 * empty piece contributes nothing to the join), upper-case, keep two characters.
 */
module Initials {
  /** `s.split(sep)`: the pieces between separators, empty ones included; never no pieces. */
  function Split(s: string, sep: char): (pieces: seq<string>)
    ensures |pieces| >= 1
    ensures forall k :: 0 <= k < |pieces| ==> sep !in pieces[k]
  {
    if s == [] then [[]]
    else
      var rest := Split(s[1..], sep);
      if s[0] == sep then [[]] + rest
      else [[s[0]] + rest[0]] + rest[1..]
  }

  /** `pieces.join(sep)`. */
  function JoinWith(pieces: seq<string>, sep: char): string
    requires |pieces| >= 1
  {
    if |pieces| == 1 then pieces[0] else pieces[0] + [sep] + JoinWith(pieces[1..], sep)
  }

  /** Joining the pieces back with the separator gives the string that was split. */
  lemma {:induction false} SplitJoin(s: string, sep: char)
    ensures JoinWith(Split(s, sep), sep) == s
  {
    if s != [] {
      var rest := Split(s[1..], sep);
      SplitJoin(s[1..], sep);
      if s[0] == sep {
        assert ([[]] + rest)[1..] == rest;
      } else {
        var pieces := [[s[0]] + rest[0]] + rest[1..];
        if |rest| > 1 {
          assert pieces[1..] == rest[1..];
          assert JoinWith(rest, sep) == rest[0] + [sep] + JoinWith(rest[1..], sep);
        }
      }
    }
  }

  /** `.map(n => n[0]).join("")`: the first character of every non-empty piece. */
  function Heads(pieces: seq<string>): string {
    if pieces == [] then []
    else (if pieces[0] != [] then [pieces[0][0]] else []) + Heads(pieces[1..])
  }

  /**
   * Reference definition: the characters of `s` that start a word, that is, are
   * not a space and come first or right after a space. `afterSpace` says whether
   * the position before `s` counts as a word boundary.
   */
  function WordStartsFrom(s: string, afterSpace: bool): string {
    if s == [] then []
    else (if afterSpace && s[0] != ' ' then [s[0]] else []) + WordStartsFrom(s[1..], s[0] == ' ')
  }

  function WordStarts(s: string): string {
    WordStartsFrom(s, true)
  }

  /** Taking the heads of the space-separated pieces picks exactly the word starts. */
  lemma {:induction false} HeadsAreWordStarts(s: string)
    ensures Heads(Split(s, ' ')) == WordStartsFrom(s, true)
    ensures Heads(Split(s, ' ')[1..]) == WordStartsFrom(s, false)
  {
    if s != [] {
      var rest := Split(s[1..], ' ');
      HeadsAreWordStarts(s[1..]);
      if s[0] == ' ' {
        var pieces := [[]] + rest;
        assert pieces[1..] == rest;
        assert Heads(pieces) == Heads(rest);
      } else {
        var pieces := [[s[0]] + rest[0]] + rest[1..];
        assert pieces[1..] == rest[1..];
        assert Heads(pieces) == [s[0]] + Heads(rest[1..]);
      }
    }
  }

  predicate IsLower(c: char) { 'a' <= c <= 'z' }

  /** `toUpperCase`, over the ASCII letters. */
  function UpperChar(c: char): (u: char)
    ensures !IsLower(u)
    ensures IsLower(c) ==> u as int == c as int - 32
    ensures !IsLower(c) ==> u == c
  {
    if IsLower(c) then (c as int - 32) as char else c
  }

  function Upper(s: string): (u: string)
    ensures |u| == |s|
    ensures forall k :: 0 <= k < |s| ==> u[k] == UpperChar(s[k])
  {
    seq(|s|, k requires 0 <= k < |s| => UpperChar(s[k]))
  }

  /** `getInitials(name)`: at most two upper-cased word starts, in order. */
  function GetInitials(name: string): (r: string)
    ensures |r| <= 2
    ensures forall c :: c in r ==> !IsLower(c)
    ensures r == Upper(WordStarts(name))[..if |WordStarts(name)| < 2 then |WordStarts(name)| else 2]
  {
    HeadsAreWordStarts(name);
    var heads := Upper(Heads(Split(name, ' ')));
    heads[..if |heads| < 2 then |heads| else 2]
  }

  /** A name whose first character is not a space yields initials starting with it, upper-cased. */
  lemma InitialsStartWithName(name: string)
    requires name != [] && name[0] != ' '
    ensures GetInitials(name) != [] && GetInitials(name)[0] == UpperChar(name[0])
  {
    assert WordStarts(name)[0] == name[0];
  }
}
