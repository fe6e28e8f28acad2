/**
 * The JavaScript string built-ins the core relies on: `indexOf`, `startsWith`,
 * `split` with a non-empty separator, `Array.prototype.join` and `trim`.
 */
module Text {

  predicate StartsWith(s: string, prefix: string)
  {
    |prefix| <= |s| && s[..|prefix|] == prefix
  }

  /** `sep` occurs in `s` starting at index `i`. */
  predicate OccursAt(s: string, sep: string, i: int)
  {
    0 <= i && i + |sep| <= |s| && s[i..i + |sep|] == sep
  }

  /** The first index at or after `from` where `sep` occurs, or -1. */
  function IndexFrom(s: string, sep: string, from: nat): (r: int)
    requires from <= |s|
    ensures r == -1 || (from <= r && OccursAt(s, sep, r))
    ensures r == -1 ==> forall i :: from <= i ==> !OccursAt(s, sep, i)
    ensures forall i :: from <= i < r ==> !OccursAt(s, sep, i)
    decreases |s| - from
  {
    if OccursAt(s, sep, from) then from
    else if from == |s| then -1
    else IndexFrom(s, sep, from + 1)
  }

  /** `s.indexOf(sep)`: the first index where `sep` occurs, or -1. */
  function IndexOf(s: string, sep: string): (r: int)
    ensures r == -1 || OccursAt(s, sep, r)
    ensures r == -1 ==> forall i :: !OccursAt(s, sep, i)
    ensures forall i :: 0 <= i < r ==> !OccursAt(s, sep, i)
  {
    IndexFrom(s, sep, 0)
  }

  /** If `sep` occurs at `k` and nowhere before, `indexOf` finds `k`. */
  lemma IndexOfFirst(s: string, sep: string, k: int)
    requires OccursAt(s, sep, k)
    requires forall i :: 0 <= i < k ==> !OccursAt(s, sep, i)
    ensures IndexOf(s, sep) == k
  {
  }

  /** A string without the separator's first character has no occurrence of it. */
  lemma AbsentLeadNoOccurrence(s: string, sep: string)
    requires |sep| > 0 && sep[0] !in s
    ensures IndexOf(s, sep) == -1
  {
    forall i | 0 <= i && i + |sep| <= |s|
      ensures !OccursAt(s, sep, i)
    {
      assert s[i..i + |sep|][0] == s[i];
    }
  }

  /** `s.split(sep)` for a non-empty separator. */
  function Split(s: string, sep: string): (parts: seq<string>)
    requires |sep| > 0
    ensures |parts| > 0
    decreases |s|
  {
    var k := IndexOf(s, sep);
    if k == -1 then [s] else [s[..k]] + Split(s[k + |sep|..], sep)
  }

  /** `parts.join(sep)`. */
  function Join(parts: seq<string>, sep: string): (r: string)
    ensures parts == [] ==> r == ""
    ensures |parts| == 1 ==> r == parts[0]
    ensures |parts| > 1 ==> StartsWith(r, parts[0] + sep)
    ensures parts != [] ==> |r| >= |parts[0]| + (|parts| - 1) * |sep|
  {
    if parts == [] then ""
    else if |parts| == 1 then parts[0]
    else parts[0] + sep + Join(parts[1..], sep)
  }

  /** No occurrence of `sep` can overlap the end of one copy and the start of another. */
  predicate Unbordered(sep: string)
  {
    forall k :: 0 < k < |sep| ==> sep[k..] != sep[..|sep| - k]
  }

  /** Joining a piece in front of a nonempty list puts the separator between them. */
  lemma JoinCons(p: string, rest: seq<string>, sep: string)
    requires rest != []
    ensures Join([p] + rest, sep) == p + sep + Join(rest, sep)
  {
    assert ([p] + rest)[1..] == rest;
  }

  /** Joining the pieces of a split gives back the original text. */
  lemma {:induction false} JoinSplit(s: string, sep: string)
    requires |sep| > 0
    ensures Join(Split(s, sep), sep) == s
    decreases |s|
  {
    var k := IndexOf(s, sep);
    if k != -1 {
      var head, rest := s[..k], s[k + |sep|..];
      JoinSplit(rest, sep);
      assert Split(s, sep) == [head] + Split(rest, sep);
      JoinCons(head, Split(rest, sep), sep);
      assert s == head + sep + rest;
    }
  }

  /** No piece of a split contains the separator. */
  lemma {:induction false} SplitPiecesHaveNoSeparator(s: string, sep: string)
    requires |sep| > 0
    ensures forall p :: p in Split(s, sep) ==> IndexOf(p, sep) == -1
    decreases |s|
  {
    var k := IndexOf(s, sep);
    if k != -1 {
      var head, rest := s[..k], s[k + |sep|..];
      forall i | 0 <= i && i + |sep| <= |head|
        ensures !OccursAt(head, sep, i)
      {
        assert head[i..i + |sep|] == s[i..i + |sep|];
        assert !OccursAt(s, sep, i);
      }
      SplitPiecesHaveNoSeparator(rest, sep);
      assert Split(s, sep) == [head] + Split(rest, sep);
    }
  }

  /** An unbordered separator cannot occur across the end of `p` into a following copy. */
  lemma NoStraddlingOccurrence(p: string, sep: string, t: string, i: int)
    requires Unbordered(sep) && 0 <= i < |p| < i + |sep|
    ensures !OccursAt(p + sep + t, sep, i)
  {
    var s := p + sep + t;
    var k := |p| - i;
    assert sep[k..] != sep[..|sep| - k];
    var j :| 0 <= j < |sep| - k && sep[k..][j] != sep[..|sep| - k][j];
    if i + |sep| <= |s| {
      assert s[i..i + |sep|][k + j] == s[|p| + j] == sep[j];
      assert s[i..i + |sep|][k + j] != sep[k + j];
    }
  }

  /**
   * Splitting a join gives back the pieces, provided no piece contains the
   * separator and the separator cannot overlap itself.
   */
  lemma {:induction false} SplitJoin(parts: seq<string>, sep: string)
    requires |sep| > 0 && Unbordered(sep) && |parts| > 0
    requires forall i :: 0 <= i < |parts| ==> IndexOf(parts[i], sep) == -1
    ensures Split(Join(parts, sep), sep) == parts
  {
    if |parts| > 1 {
      var p, t := parts[0], Join(parts[1..], sep);
      var s := p + sep + t;
      assert Join(parts, sep) == s;
      assert OccursAt(s, sep, |p|) by {
        assert s[|p|..|p| + |sep|] == sep;
      }
      assert IndexOf(p, sep) == -1;
      forall i | 0 <= i < |p|
        ensures !OccursAt(s, sep, i)
      {
        if i + |sep| <= |p| {
          assert !OccursAt(p, sep, i);
          assert s[i..i + |sep|] == p[i..i + |sep|];
        } else {
          NoStraddlingOccurrence(p, sep, t, i);
        }
      }
      IndexOfFirst(s, sep, |p|);
      assert s[..|p|] == p;
      assert s[|p| + |sep|..] == t;
      SplitJoin(parts[1..], sep);
      assert parts == [p] + parts[1..];
    }
  }

  /** Whitespace as `String.prototype.trim` understands it. */
  predicate IsSpace(c: char)
  {
    c == ' ' || c == '\t' || c == '\n' || c == '\r' || c == '\U{000B}' || c == '\U{000C}'
    || c == '\U{00A0}' || c == '\U{1680}' || ('\U{2000}' <= c <= '\U{200A}')
    || c == '\U{2028}' || c == '\U{2029}' || c == '\U{202F}' || c == '\U{205F}'
    || c == '\U{3000}' || c == '\U{FEFF}'
  }

  predicate Blank(s: string)
  {
    forall i :: 0 <= i < |s| ==> IsSpace(s[i])
  }

  /** Drops leading whitespace: the result is a suffix that does not start with a space. */
  function TrimStart(s: string): (r: string)
    ensures |r| <= |s| && r == s[|s| - |r|..]
    ensures r == [] || !IsSpace(r[0])
  {
    if |s| > 0 && IsSpace(s[0]) then TrimStart(s[1..]) else s
  }

  /** Drops trailing whitespace: the result is a prefix that does not end with a space. */
  function TrimEnd(s: string): (r: string)
    ensures |r| <= |s| && r == s[..|r|]
    ensures r == [] || !IsSpace(r[|r| - 1])
  {
    if |s| > 0 && IsSpace(s[|s| - 1]) then TrimEnd(s[..|s| - 1]) else s
  }

  /** Only whitespace is dropped from the front. */
  lemma {:induction false} TrimStartDropsBlank(s: string)
    ensures Blank(s[..|s| - |TrimStart(s)|])
    decreases |s|
  {
    if |s| > 0 && IsSpace(s[0]) {
      var k := |s| - |TrimStart(s)|;
      TrimStartDropsBlank(s[1..]);
      assert TrimStart(s) == TrimStart(s[1..]);
      forall i | 1 <= i < k ensures IsSpace(s[..k][i]) {
        assert s[..k][i] == s[1..][..k - 1][i - 1];
      }
    }
  }

  /** Only whitespace is dropped from the back. */
  lemma {:induction false} TrimEndDropsBlank(s: string)
    ensures Blank(s[|TrimEnd(s)|..])
    decreases |s|
  {
    if |s| > 0 && IsSpace(s[|s| - 1]) {
      var k := |TrimEnd(s)|;
      var u := s[..|s| - 1];
      TrimEndDropsBlank(u);
      assert TrimEnd(s) == TrimEnd(u);
      forall j | 0 <= j < |s| - 1 - k ensures IsSpace(s[k..][j]) {
        assert s[k..][j] == u[k..][j];
      }
    }
  }

  /** A blank prefix followed by a blank suffix `t` makes the whole text blank. */
  lemma BlankAcross(s: string, t: string)
    requires |t| <= |s| && s[|s| - |t|..] == t
    requires Blank(s[..|s| - |t|]) && Blank(t)
    ensures Blank(s)
  {
    var d := |s| - |t|;
    forall i | 0 <= i < |s| ensures IsSpace(s[i]) {
      if i < d {
        assert s[..d][i] == s[i];
      } else {
        assert t[i - d] == s[i];
      }
    }
  }

  /** All-whitespace text trims to nothing. */
  lemma BlankTrimsToEmpty(s: string)
    requires Blank(s)
    ensures TrimEnd(TrimStart(s)) == []
  {
  }

  /** Text that trims to nothing is all whitespace: what each end dropped covers it. */
  lemma TrimmedEmptyIsBlank(s: string)
    requires TrimEnd(TrimStart(s)) == []
    ensures Blank(s)
  {
    var t := TrimStart(s);
    TrimStartDropsBlank(s);
    TrimEndDropsBlank(t);
    assert t[|TrimEnd(t)|..] == t;
    BlankAcross(s, t);
  }

  /** Trimming both ends leaves nothing exactly when the text is all whitespace. */
  lemma TrimmedEmptyIffBlank(s: string)
    ensures TrimEnd(TrimStart(s)) == [] <==> Blank(s)
  {
    if Blank(s) {
      BlankTrimsToEmpty(s);
    }
    if TrimEnd(TrimStart(s)) == [] {
      TrimmedEmptyIsBlank(s);
    }
  }

  /** `s.trim()`. */
  function Trim(s: string): (r: string)
    ensures r == [] <==> Blank(s)
    ensures r == [] || (!IsSpace(r[0]) && !IsSpace(r[|r| - 1]))
  {
    TrimmedEmptyIffBlank(s);
    TrimEnd(TrimStart(s))
  }

  /** Trimming text that is already trimmed changes nothing. */
  lemma TrimIdempotent(s: string)
    ensures Trim(Trim(s)) == Trim(s)
  {
  }
}
