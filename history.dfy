/** The per-channel conversation log: entries `{role, content, ts}` and the capped append. */
module History {
  import opened Common

  /** One logged utterance: who spoke (the role string), what was said, and when. */
  datatype Entry = Entry(role: string, content: string, ts: int)

  /** The role under which every human message is logged. */
  const UserRole: string := "ユーザー"

  /** `s[-k:]` for a positive `k`: the last `k` elements, or all of `s` when it is shorter. */
  function Last<T>(s: seq<T>, k: Pos): (r: seq<T>)
    ensures |r| == if |s| < k then |s| else k
    ensures r == s[|s| - |r|..]
  {
    if |s| <= k then s else s[|s| - k..]
  }

  /** `add_log` on one channel's list: append `e`, then keep only the newest `cap` entries. */
  function Appended(h: seq<Entry>, e: Entry, cap: Pos): (r: seq<Entry>)
    ensures |r| <= cap
    ensures |r| > 0 && r[|r| - 1] == e
    ensures |h| < cap ==> r == h + [e]
    ensures |h| >= cap ==> r == h[|h| - cap + 1..] + [e]
  {
    var l := h + [e];
    if |l| > cap then
      assert l[|l| - cap..] == h[|h| - cap + 1..] + [e];
      Last(l, cap)
    else l
  }

  /** Applying `add_log` for a whole sequence of entries, oldest first. However many are
      appended, the log holds the newest `cap` entries of the whole stream, in order: exactly
      `Last(h + es, cap)`, once anything was appended or `h` itself respected the cap. */
  function AppendAll(h: seq<Entry>, es: seq<Entry>, cap: Pos): (r: seq<Entry>)
    ensures es != [] || |h| <= cap ==> r == Last(h + es, cap)
    decreases |es|
  {
    if es == [] then
      assert h + es == h;
      h
    else
      var first := [es[0]];
      var h1 := Appended(h, es[0], cap);
      assert h1 == Last(h + first, cap);
      SuffixOfLast(h + first, es[1..], cap);
      assert h + first + es[1..] == h + es;
      AppendAll(h1, es[1..], cap)
  }

  /** Taking the last `k` before extending and again after is the same as once after. */
  lemma SuffixOfLast<T>(s: seq<T>, t: seq<T>, k: Pos)
    ensures Last(Last(s, k) + t, k) == Last(s + t, k)
  {
    var l := Last(s, k);
    assert l + t == (s + t)[|s| - |l|..];
  }
}
