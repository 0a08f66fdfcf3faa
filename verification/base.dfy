/** Small building blocks shared by every other module: an option type,
    string prefixes, whitespace trimming and splitting on a separator. */
module Base {

  datatype Option<+T> = None | Some(value: T)

  /** `s.startsWith(p)` in JavaScript: `p` is a prefix of `s`. */
  predicate StartsWith(s: string, p: string) {
    |p| <= |s| && s[..|p|] == p
  }

  /** Every character of `s` is whitespace for `ws`. */
  predicate Blank(s: string, ws: char -> bool) {
    forall i :: 0 <= i < |s| ==> ws(s[i])
  }

  /** Drops leading whitespace. */
  function TrimStart(s: string, ws: char -> bool): string
    decreases |s|
  {
    if |s| > 0 && ws(s[0]) then TrimStart(s[1..], ws) else s
  }

  /** Drops trailing whitespace. */
  function TrimEnd(s: string, ws: char -> bool): string
    decreases |s|
  {
    if |s| > 0 && ws(s[|s| - 1]) then TrimEnd(s[..|s| - 1], ws) else s
  }

  /** Drops whitespace at both ends, as `String.prototype.trim` does. */
  function Trim(s: string, ws: char -> bool): string {
    TrimEnd(TrimStart(s, ws), ws)
  }

  /** `TrimStart` keeps a suffix and drops only whitespace, and what it keeps
      does not start with whitespace. */
  lemma {:induction false} TrimStartSpec(s: string, ws: char -> bool)
    ensures var r := TrimStart(s, ws);
      && |r| <= |s| && r == s[|s| - |r|..]
      && Blank(s[..|s| - |r|], ws)
      && (r == [] || !ws(r[0]))
    decreases |s|
  {
    if |s| > 0 && ws(s[0]) {
      TrimStartSpec(s[1..], ws);
      var r := TrimStart(s, ws);
      assert s[..|s| - |r|] == [s[0]] + s[1..][..|s[1..]| - |r|];
    }
  }

  /** `TrimEnd` keeps a prefix and drops only whitespace, and what it keeps
      does not end with whitespace. */
  lemma {:induction false} TrimEndSpec(s: string, ws: char -> bool)
    ensures var r := TrimEnd(s, ws);
      && |r| <= |s| && r == s[..|r|]
      && Blank(s[|r|..], ws)
      && (r == [] || !ws(r[|r| - 1]))
    decreases |s|
  {
    if |s| > 0 && ws(s[|s| - 1]) {
      TrimEndSpec(s[..|s| - 1], ws);
      var r := TrimEnd(s, ws);
      assert s[|r|..] == s[..|s| - 1][|r|..] + [s[|s| - 1]];
    }
  }

  /** A string trims to nothing exactly when it is entirely whitespace. */
  lemma TrimEmptyIffBlank(s: string, ws: char -> bool)
    ensures Trim(s, ws) == [] <==> Blank(s, ws)
  {
    var a := TrimStart(s, ws);
    var b := TrimEnd(a, ws);
    TrimStartSpec(s, ws);
    TrimEndSpec(a, ws);
    if b == [] {
      assert a == [] by {
        if a != [] {
          assert false;
        }
      }
      assert s[..|s| - |a|] == s;
    } else if Blank(s, ws) {
      assert false;
    }
  }

  /** Position of the first `c` in `s`, if any. */
  function IndexOf(s: string, c: char): (k: Option<nat>)
    ensures k.None? <==> c !in s
    ensures k.Some? ==> k.value < |s| && s[k.value] == c && c !in s[..k.value]
    decreases |s|
  {
    if |s| == 0 then None
    else if s[0] == c then Some(0)
    else
      match IndexOf(s[1..], c)
      case None => None
      case Some(j) => Some(j + 1)
  }

  /** `parts.join([sep])`. */
  function JoinWith(parts: seq<string>, sep: char): string
    requires |parts| >= 1
  {
    if |parts| == 1 then parts[0] else parts[0] + [sep] + JoinWith(parts[1..], sep)
  }

  /** The parts of `s` between occurrences of `sep`, as a browser cuts a
      `Set-Cookie` header at each ';' (section 5.2 of RFC 6265). */
  function SplitOn(s: string, sep: char): (parts: seq<string>)
    ensures |parts| >= 1
    ensures forall i :: 0 <= i < |parts| ==> sep !in parts[i]
    decreases |s|
  {
    match IndexOf(s, sep)
    case None => [s]
    case Some(k) => [s[..k]] + SplitOn(s[k + 1..], sep)
  }

  /** One step of joining: the first part, the separator, then the rest joined. */
  lemma JoinCons(p: string, rest: seq<string>, sep: char)
    requires |rest| >= 1
    ensures JoinWith([p] + rest, sep) == p + [sep] + JoinWith(rest, sep)
  {
    assert ([p] + rest)[1..] == rest;
  }

  /** Joining the parts gives back the string that was split. */
  lemma {:induction false} JoinSplit(s: string, sep: char)
    ensures JoinWith(SplitOn(s, sep), sep) == s
    decreases |s|
  {
    match IndexOf(s, sep)
    case None =>
    case Some(k) =>
      var rest := SplitOn(s[k + 1..], sep);
      assert SplitOn(s, sep) == [s[..k]] + rest;
      JoinSplit(s[k + 1..], sep);
      JoinCons(s[..k], rest, sep);
      assert s == s[..k] + [sep] + s[k + 1..];
  }

  /** Splitting undoes joining when no part contains the separator. */
  lemma {:induction false} SplitJoin(parts: seq<string>, sep: char)
    requires |parts| >= 1
    requires forall i :: 0 <= i < |parts| ==> sep !in parts[i]
    ensures SplitOn(JoinWith(parts, sep), sep) == parts
    decreases |parts|
  {
    if |parts| > 1 {
      var s := JoinWith(parts, sep);
      var p := parts[0];
      assert sep !in p;
      assert s == p + [sep] + JoinWith(parts[1..], sep);
      assert s[..|p|] == p;
      assert s[|p|] == sep;
      var k := IndexOf(s, sep);
      assert k.Some?;
      assert k == Some(|p|) by {
        if k.value < |p| {
          assert false;
        } else if k.value > |p| {
          assert false;
        }
      }
      assert s[|p| + 1..] == JoinWith(parts[1..], sep);
      SplitJoin(parts[1..], sep);
    } else {
      assert sep !in parts[0];
    }
  }
}
