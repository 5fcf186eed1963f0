/** Page arithmetic of the V3 positions view: which slice of the fetched
    list the "show more" reconciliation appends, and what the displayed
    list is after a run of reconciliations. A page is 10 NFTs, written as
    the literal 10 as the view writes it (which also keeps the arithmetic
    linear for the verifier). */
module Pagination {

  function Min(a: nat, b: nat): nat { if a <= b then a else b }

  /** Pages lo+1 .. hi (1-based) of `s`, with both bounds clipped to the
      list as Array.prototype.slice clips them. Window(s, p - 1, p) is
      `s.slice((p - 1) * 10, (p - 1) * 10 + 10)`. */
  function Window<T>(s: seq<T>, lo: nat, hi: nat): (r: seq<T>)
    requires lo <= hi
    ensures |r| <= |s| && |r| <= (hi - lo) * 10 && (lo == hi ==> r == [])
    ensures |r| == (if lo * 10 < |s| then Min(hi * 10, |s|) - lo * 10 else 0)
  {
    s[Min(lo * 10, |s|)..Min(hi * 10, |s|)]
  }

  /** The first `hi` pages of `s`. */
  lemma WindowFromStart<T>(s: seq<T>, hi: nat)
    ensures Window(s, 0, hi) == s[..Min(hi * 10, |s|)]
  {
  }

  /** Adjacent windows concatenate. */
  lemma WindowSplit<T>(s: seq<T>, lo: nat, mid: nat, hi: nat)
    requires lo <= mid <= hi
    ensures Window(s, lo, mid) + Window(s, mid, hi) == Window(s, lo, hi)
  {
    var a, b, c := Min(lo * 10, |s|), Min(mid * 10, |s|), Min(hi * 10, |s|);
    assert s[a..b] + s[b..c] == s[a..c];
  }

  /** handleSettingDisplayNFTs: when the fetched list is longer than the
      displayed one, the slice of page `page` is appended to the display. */
  function Reconcile<T>(nfts: seq<T>, display: seq<T>, page: nat): seq<T>
    requires 1 <= page
  {
    if |nfts| > |display| then display + Window(nfts, page - 1, page) else display
  }

  /** Reconciliation keeps what is displayed as a prefix and adds at most
      one page: nothing when the display is at least as long as the list,
      otherwise exactly the slice of page `page`. */
  lemma ReconcileSpec<T>(nfts: seq<T>, display: seq<T>, page: nat)
    requires 1 <= page
    ensures var r := Reconcile(nfts, display, page);
      && |display| <= |r| <= |display| + 10 && r[..|display|] == display
      && (|display| >= |nfts| ==> r == display)
      && (|nfts| > |display| ==> r[|display|..] == Window(nfts, page - 1, page))
  {
    var r := Reconcile(nfts, display, page);
    if |nfts| > |display| {
      assert r[..|display|] == display;
      assert r[|display|..] == Window(nfts, page - 1, page);
    }
  }

  /** If the display holds pages lo+1 .. page-1, reconciling on `page`
      makes it hold pages lo+1 .. page; once the display covers the whole
      list it stays as it is. */
  lemma ReconcileSettles<T>(s: seq<T>, lo: nat, page: nat)
    requires 1 <= page && lo <= page - 1
    ensures Reconcile(s, Window(s, lo, page - 1), page) == Window(s, lo, page)
  {
    var w := Window(s, lo, page - 1);
    if |s| > |w| {
      WindowSplit(s, lo, page - 1, page);
    } else {
      assert Min(lo * 10, |s|) == 0 && Min((page - 1) * 10, |s|) == |s|;
      assert w == s[0..|s|] == Window(s, lo, page);
    }
  }

  /** The display after the reconciliation that follows a fetch on page 1
      and then `k` rounds of "show more" followed by reconciliation. */
  function ShownAfter<T>(nfts: seq<T>, k: nat): seq<T>
  {
    if k == 0 then Reconcile(nfts, [], 1) else Reconcile(nfts, ShownAfter(nfts, k - 1), k + 1)
  }

  /** Starting from an empty display on page 1, the display holds exactly
      the first k + 1 pages of the list. */
  lemma {:induction false} ShownAfterIsWindow<T>(nfts: seq<T>, k: nat)
    ensures ShownAfter(nfts, k) == Window(nfts, 0, k + 1)
  {
    if k == 0 {
      assert Window(nfts, 0, 0) == [];
      ReconcileSettles(nfts, 0, 1);
    } else {
      ShownAfterIsWindow(nfts, k - 1);
      ReconcileSettles(nfts, 0, k + 1);
    }
  }

  /** Hence the display is always the first (k + 1) * 10 NFTs, clipped to
      the list: a prefix that is never longer than the list and grows by
      whole pages. */
  lemma ShownAfterIsPrefix<T>(nfts: seq<T>, k: nat)
    ensures ShownAfter(nfts, k) == nfts[..Min((k + 1) * 10, |nfts|)]
    ensures |ShownAfter(nfts, k)| == Min((k + 1) * 10, |nfts|)
  {
    ShownAfterIsWindow(nfts, k);
    WindowFromStart(nfts, k + 1);
  }

  /** A list of 25 NFTs: the display grows to 10, 20 and then 25. */
  lemma TwentyFiveNfts<T>(nfts: seq<T>)
    requires |nfts| == 25
    ensures |ShownAfter(nfts, 0)| == 10 && |ShownAfter(nfts, 1)| == 20 && |ShownAfter(nfts, 2)| == 25
    ensures ShownAfter(nfts, 2) == nfts
  {
    ShownAfterIsPrefix(nfts, 0);
    ShownAfterIsPrefix(nfts, 1);
    ShownAfterIsPrefix(nfts, 2);
  }

  /** Reconciliation is not idempotent: run twice on page 1 over a list of
      more than ten NFTs, it shows the first page twice. The view depends on
      the effect running only when the list or the page changes. */
  lemma ReconcileNotIdempotent<T>(nfts: seq<T>)
    requires |nfts| > 10
    ensures Reconcile(nfts, Reconcile(nfts, [], 1), 1) == nfts[..10] + nfts[..10]
    ensures Reconcile(nfts, Reconcile(nfts, [], 1), 1) != Reconcile(nfts, [], 1)
  {
    var once := Reconcile(nfts, [], 1);
    assert once == nfts[..10];
  }

  /** A list fetched while the page counter is past 1 is shown from page
      `page` on: the display is that one page and is not a prefix of the
      list, whatever the list holds. */
  lemma RefetchShowsOnlyCurrentPage<T>(nfts: seq<T>, page: nat)
    requires 2 <= page && nfts != []
    ensures Reconcile(nfts, [], page) == Window(nfts, page - 1, page)
    ensures Reconcile(nfts, [], page) != nfts[..Min(page * 10, |nfts|)]
  {
    var r := Reconcile(nfts, [], page);
    if (page - 1) * 10 < |nfts| {
      assert |r| <= 10 < Min(page * 10, |nfts|);
    } else {
      assert |r| == 0 < Min(page * 10, |nfts|);
    }
  }
}
