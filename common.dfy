/**
 * Vocabulary shared by the pages: an Option type for values that may be
 * absent (`null`/`undefined`), the JavaScript notion of white space and
 * `String.prototype.trim`, and the uniqueness of the list-length ids the
 * pages hand out to new posts and communities.
 */
module Common {

  datatype Option<+T> = None | Some(value: T)

  /** Looks a key up in a map whose keys may be missing. */
  function Get<K, V>(m: map<K, V>, k: K): (r: Option<V>)
    ensures r.Some? <==> k in m
    ensures r.Some? ==> r.value == m[k]
  {
    if k in m then Some(m[k]) else None
  }

  // ---------------------------------------------------------------------
  // White space and trim
  // ---------------------------------------------------------------------

  /**
   * The characters `trim` removes: the WhiteSpace and LineTerminator
   * productions of ECMAScript (tab, vertical tab, form feed, space,
   * no-break space, byte order mark, the Unicode space separators, line
   * feed, carriage return, line and paragraph separators).
   */
  predicate IsWhiteSpace(c: char) {
    c == '\t' || c == '\n' || c == '\U{000B}' || c == '\U{000C}' || c == '\r' || c == ' '
    || c == '\U{00A0}' || c == '\U{1680}' || ('\U{2000}' <= c <= '\U{200A}')
    || c == '\U{2028}' || c == '\U{2029}' || c == '\U{202F}' || c == '\U{205F}'
    || c == '\U{3000}' || c == '\U{FEFF}'
  }

  /** Every character of `s` is white space. */
  predicate AllWhiteSpace(s: string) {
    forall i :: 0 <= i < |s| ==> IsWhiteSpace(s[i])
  }

  /** `s` with its leading white space removed. */
  function TrimStart(s: string): (r: string)
    ensures |r| <= |s| && r == s[|s| - |r|..]
    ensures r != [] ==> !IsWhiteSpace(r[0])
    ensures AllWhiteSpace(s[..|s| - |r|])
  {
    if s != [] && IsWhiteSpace(s[0]) then
      var r := TrimStart(s[1..]);
      assert s[1..][..|s| - 1 - |r|] == s[1..|s| - |r|];
      r
    else
      s
  }

  /** `s` with its trailing white space removed. */
  function TrimEnd(s: string): (r: string)
    ensures |r| <= |s| && r == s[..|r|]
    ensures r != [] ==> !IsWhiteSpace(r[|r| - 1])
    ensures AllWhiteSpace(s[|r|..])
  {
    if s != [] && IsWhiteSpace(s[|s| - 1]) then
      var r := TrimEnd(s[..|s| - 1]);
      assert s[..|s| - 1][|r|..] == s[|r|..|s| - 1];
      r
    else
      s
  }

  /**
   * `String.prototype.trim`: both ends stripped of white space, so that
   * neither end of a non-empty result is white space.
   */
  function Trim(s: string): (r: string)
    ensures |r| <= |s|
    ensures r != "" ==> !IsWhiteSpace(r[0]) && !IsWhiteSpace(r[|r| - 1])
  {
    var t := TrimStart(s);
    var r := TrimEnd(t);
    assert r != "" ==> r[0] == t[0];
    r
  }

  /** `trim` keeps a contiguous middle part of `s` whose ends are not white space. */
  lemma TrimIsInfix(s: string)
    ensures exists i, j ::
              && 0 <= i <= j <= |s| && Trim(s) == s[i..j]
              && AllWhiteSpace(s[..i]) && AllWhiteSpace(s[j..])
  {
    var t := TrimStart(s);
    var r := TrimEnd(t);
    var i := |s| - |t|;
    var j := i + |r|;
    assert t[|r|..] == s[j..];
    assert t[..|r|] == s[i..j];
  }

  /** `trim` gives the empty string exactly when the string consists of white space only. */
  lemma {:induction false} BlankIffAllWhiteSpace(s: string)
    ensures Trim(s) == "" <==> AllWhiteSpace(s)
  {
    var t := TrimStart(s);
    if t == [] {
      assert s[..|s|] == s;
    } else {
      assert !IsWhiteSpace(s[|s| - |t|]);
    }
  }

  /**
   * In a condition such as `if (s.trim())` a string is truthy when it is
   * not empty; `IsBlank(s)` is the case where `s.trim()` is falsy, which
   * is exactly the case of a string of white space only (the empty string
   * included).
   */
  function IsBlank(s: string): (blank: bool)
    ensures blank <==> AllWhiteSpace(s)
  {
    BlankIffAllWhiteSpace(s);
    Trim(s) == ""
  }

  // ---------------------------------------------------------------------
  // Ids handed out as "length of the list plus one"
  // ---------------------------------------------------------------------

  /** No id occurs twice. */
  predicate Distinct(ids: seq<int>) {
    forall i, j :: 0 <= i < j < |ids| ==> ids[i] != ids[j]
  }

  /** The ids are unique and each lies in 1..|ids|; by counting they are 1..|ids| exactly. */
  predicate OneToN(ids: seq<int>) {
    Distinct(ids) && forall i :: 0 <= i < |ids| ==> 1 <= ids[i] <= |ids|
  }

  /** The set {1, ..., n}. */
  function UpTo(n: nat): (r: set<int>)
    ensures forall k :: k in r <==> 1 <= k <= n
    ensures |r| == n
  {
    if n == 0 then {} else
      var r := UpTo(n - 1) + {n};
      assert n !in UpTo(n - 1);
      r
  }

  /** The elements of a list without repetitions are as many as its positions. */
  lemma {:induction false} DistinctCard(ids: seq<int>)
    requires Distinct(ids)
    ensures |set i | 0 <= i < |ids| :: ids[i]| == |ids|
  {
    if ids != [] {
      var rest := ids[..|ids| - 1];
      DistinctCard(rest);
      var last := ids[|ids| - 1];
      var s := set i | 0 <= i < |ids| :: ids[i];
      var s' := set i | 0 <= i < |rest| :: rest[i];
      assert s == s' + {last};
      assert last !in s';
    }
  }

  /** `OneToN` really means that the ids are exactly 1, ..., n. */
  lemma OneToNIsRange(ids: seq<int>)
    requires OneToN(ids)
    ensures (set i | 0 <= i < |ids| :: ids[i]) == UpTo(|ids|)
  {
    var s := set i | 0 <= i < |ids| :: ids[i];
    DistinctCard(ids);
    assert s <= UpTo(|ids|);
    var all := UpTo(|ids|);
    assert all == s + (all - s);
    assert |all - s| == 0;
    assert all - s == {};
  }

  /** Putting id n+1 in front of ids 1..n gives ids 1..n+1. */
  lemma PrependNextId(ids: seq<int>)
    requires OneToN(ids)
    ensures OneToN([|ids| + 1] + ids)
  {
    var ids' := [|ids| + 1] + ids;
    forall i, j | 0 <= i < j < |ids'| ensures ids'[i] != ids'[j] {
      if i > 0 {
        assert ids'[i] == ids[i - 1] && ids'[j] == ids[j - 1];
      }
    }
  }

  /** Putting id n+1 behind ids 1..n gives ids 1..n+1. */
  lemma AppendNextId(ids: seq<int>)
    requires OneToN(ids)
    ensures OneToN(ids + [|ids| + 1])
  {
  }
}
