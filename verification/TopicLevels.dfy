/**
 Topic names and filters as '/'-separated levels, and the flat matcher used for offline
 delivery and retained backfill.
 */
module TopicLevels {

  type Path = seq<string>

  /** Index of the first '/', or |s|. */
  function Slash(s: string): (k: nat)
    ensures k <= |s|
    ensures k < |s| ==> s[k] == '/'
    ensures forall i :: 0 <= i < k ==> s[i] != '/'
  {
    if s == "" || s[0] == '/' then 0 else 1 + Slash(s[1..])
  }

  /** strings.Split(s, "/"). */
  function Split(s: string): (parts: Path)
    ensures |parts| >= 1
    decreases |s|
  {
    var k := Slash(s);
    if k == |s| then [s] else [s[..k]] + Split(s[k + 1..])
  }

  function Join(parts: Path): string
    requires |parts| >= 1
  {
    if |parts| == 1 then parts[0] else parts[0] + "/" + Join(parts[1..])
  }

  /** Splitting loses nothing: a filter is its levels. */
  lemma {:induction false} JoinSplit(s: string)
    ensures Join(Split(s)) == s
    decreases |s|
  {
    var k := Slash(s);
    if k < |s| {
      JoinSplit(s[k + 1..]);
      assert Split(s)[1..] == Split(s[k + 1..]);
      assert s == s[..k] + "/" + s[k + 1..];
    }
  }

  /** No level contains a '/'. */
  lemma {:induction false} LevelsWhole(s: string)
    ensures forall i :: 0 <= i < |Split(s)| ==> '/' !in Split(s)[i]
    decreases |s|
  {
    var k := Slash(s);
    if k < |s| {
      LevelsWhole(s[k + 1..]);
      assert Split(s)[1..] == Split(s[k + 1..]);
    }
  }

  lemma SplitInjective(s: string, t: string)
    requires Split(s) == Split(t)
    ensures s == t
  {
    JoinSplit(s);
    JoinSplit(t);
  }

  lemma {:induction false} SplitStep(s: string)
    ensures Slash(s) == |s| ==> Split(s) == [s]
    ensures Slash(s) < |s| ==> Split(s)[0] == s[..Slash(s)] && Split(s)[1..] == Split(s[Slash(s) + 1..])
    ensures Slash(s) < |s| <==> |Split(s)| > 1
  {
  }

  /** The first level starts where the string does. */
  lemma {:induction false} FirstLevel(s: string)
    ensures Split(s)[0] != "" ==> s != "" && s[0] == Split(s)[0][0]
    ensures Split(s)[0] == "" ==> s == "" || s[0] == '/'
  {
    SplitStep(s);
  }

  /** The rest of the string holds the levels from i on. */
  ghost predicate LevelsFrom(parts: Path, i: int, rest: string) {
    0 <= i < |parts| && parts[i..] == Split(rest)
  }

  lemma CutLevel(parts: Path, i: nat, rest: string)
    requires LevelsFrom(parts, i, rest)
    ensures var k := Slash(rest);
            if k < |rest| then i + 1 < |parts| && parts[i] == rest[..k] && LevelsFrom(parts, i + 1, rest[k + 1..])
            else i + 1 == |parts| && parts[i] == rest
  {
    SplitStep(rest);
    assert parts[i..][0] == parts[i];
    if Slash(rest) < |rest| { assert parts[i..][1..] == parts[i + 1..]; }
  }

  /** isolateParticle for d >= 0: the d-th level (the last one when there are fewer), and whether
      another follows. */
  method IsolateParticle(filter: string, d: nat) returns (particle: string, hasNext: bool)
    ensures var parts := Split(filter);
            && particle == (if d < |parts| then parts[d] else parts[|parts| - 1])
            && hasNext == (d + 1 < |parts|)
  {
    var rest, end, i := filter, 0, 0;
    particle, hasNext := "", false;
    ghost var parts := Split(filter);
    assert parts[0..] == parts;
    while end > -1 && i <= d
      invariant 0 <= i <= d + 1 && end >= -1
      invariant end > -1 && i <= d ==> LevelsFrom(parts, i, rest)
      invariant end == -1 ==> |parts| <= i && particle == parts[|parts| - 1] && !hasNext
      invariant end > -1 && i == d + 1 ==> d + 1 < |parts| && particle == parts[d] && hasNext
      decreases d + 1 - i
    {
      var k := Slash(rest);
      CutLevel(parts, i, rest);
      end := if k < |rest| then k else -1;
      if i == d && end > -1 {
        hasNext, particle := true, rest[..k];
      } else if end > -1 {
        hasNext, rest := false, rest[k + 1..];
      } else {
        hasNext, particle := false, rest;
      }
      i := i + 1;
    }
  }

  // ---------------------------------------------------------------- matching levels

  /** The flat matcher's loop, level by level. */
  predicate LevelsMatch(f: Path, t: Path) {
    if f == [] then t == []
    else if f[0] == "#" then |f| == 1
    else t != [] && (f[0] == "+" || f[0] == t[0]) && LevelsMatch(f[1..], t[1..])
  }

  /** How many leading levels are compared one to one. */
  function Fixed(f: Path): (n: nat)
    ensures n <= |f| && (forall i :: 0 <= i < n ==> f[i] != "#") && (n < |f| ==> f[n] == "#")
  {
    if f == [] || f[0] == "#" then 0 else 1 + Fixed(f[1..])
  }

  /** Sections 4.7.1.2 and 4.7.1.3 of MQTT 5.0: `+` stands for one level, a final `#` for any number
      of remaining levels, and a `#` elsewhere matches nothing. */
  ghost predicate Matches(f: Path, t: Path) {
    && (forall i :: 0 <= i < |f| && i < |t| && i < Fixed(f) ==> f[i] == "+" || f[i] == t[i])
    && Fixed(f) <= |t|
    && (Fixed(f) == |f| ==> |t| == |f|)
    && (Fixed(f) < |f| ==> |f| == Fixed(f) + 1)
  }

  lemma {:induction false} LevelsMatchIff(f: Path, t: Path)
    ensures LevelsMatch(f, t) <==> Matches(f, t)
    decreases |f|
  {
    if f != [] && f[0] != "#" {
      if t != [] {
        LevelsMatchIff(f[1..], t[1..]);
        if Matches(f, t) {
          assert f[0] == "+" || f[0] == t[0];
          assert forall i :: 0 <= i < |f[1..]| ==> f[1..][i] == f[i + 1];
          assert forall i :: 0 <= i < |t[1..]| ==> t[1..][i] == t[i + 1];
        }
        if Matches(f[1..], t[1..]) && (f[0] == "+" || f[0] == t[0]) {
          forall i | 0 <= i < |f| && i < |t| && i < Fixed(f) ensures f[i] == "+" || f[i] == t[i] {
            if i > 0 { assert f[i] == f[1..][i - 1] && t[i] == t[1..][i - 1]; }
          }
        }
      }
    }
  }

  /** A `$` topic is never matched by a leading wildcard. */
  predicate DollarBlocked(f: Path, t: Path) {
    f != [] && t != [] && t[0] != "" && t[0][0] == '$' && f[0] in {"+", "#"}
  }

  /** No level of a concrete topic is a wildcard. */
  predicate WildcardFree(t: Path) {
    forall i :: 0 <= i < |t| ==> t[i] != "+" && t[i] != "#"
  }

  lemma {:induction false} MatchesItself(t: Path)
    requires WildcardFree(t)
    ensures LevelsMatch(t, t)
    decreases |t|
  {
    if t != [] { MatchesItself(t[1..]); }
  }

  /** acl.MatchTopic. */
  method MatchTopic(filter: string, topic: string) returns (b: bool)
    ensures b <==> filter == topic || (!DollarBlocked(Split(filter), Split(topic)) && LevelsMatch(Split(filter), Split(topic)))
  {
    if filter == topic { return true; }
    var f, t := Split(filter), Split(topic);
    if |t| > 0 && |t[0]| > 0 && t[0][0] == '$' {
      if |f| == 0 || (f[0] != t[0] && (f[0] == "#" || f[0] == "+")) { return false; }
    }
    var i := 0;
    while i < |f|
      invariant 0 <= i <= |f| && i <= |t|
      invariant LevelsMatch(f[i..], t[i..]) == LevelsMatch(f, t)
    {
      assert f[i..][1..] == f[i + 1..];
      if f[i] == "#" { return i == |f| - 1; }
      if i >= |t| { return false; }
      assert t[i..][1..] == t[i + 1..];
      if f[i] != "+" && f[i] != t[i] { return false; }
      i := i + 1;
    }
    return i == |t|;
  }

  /** For a concrete topic the whole-string shortcut adds nothing. */
  lemma FlatMatchConcrete(filter: string, topic: string)
    requires WildcardFree(Split(topic)) && filter == topic
    ensures !DollarBlocked(Split(filter), Split(topic)) && LevelsMatch(Split(filter), Split(topic))
  {
    MatchesItself(Split(topic));
  }
}
