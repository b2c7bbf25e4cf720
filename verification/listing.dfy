/**
 The browse views the server renders as HTML fragments: the repository's
 root listing (`GET /files`) and the open pull requests (`GET /prs`). The
 markup itself is not modelled; a page is the structured list of what it
 shows, in order.
 */
module Listing {
  import opened Js
  import opened GitHub
  import Decimal

  /** One line of the file browser: a link that loads a file, or a folder
      label. */
  datatype Item = FileLink(path: string, name: string) | Folder(name: string)

  /** One open pull request, with the hidden fields of its merge form. */
  datatype Card = Card(number: string, title: string, description: string,
                       headRef: string, baseRef: string,
                       formPrNumber: string, formCommitTitle: string)

  /** An HTML fragment: a single `<p>` notice, the file browser, or the
      pull-request list. */
  datatype Html = Notice(text: string) | FileList(items: seq<Item>) | PullList(cards: seq<Card>)

  /** The prefix of a merge commit's default title, followed by the number. */
  const MergeTitlePrefix := "Merge pull request #"

  /** Entries of these two types are rendered; every other type is skipped. */
  predicate Shown(e: Entry) {
    e.kind == "file" || e.kind == "dir"
  }

  function ItemOf(e: Entry): Item
    requires Shown(e)
  {
    if e.kind == "file" then FileLink(e.path, e.name) else Folder(e.name)
  }

  /** The `files.forEach` fold: one item per shown entry, in input order. */
  function Items(es: seq<Entry>): (r: seq<Item>)
    ensures |r| <= |es|
    ensures |r| == |es| ==> forall i :: 0 <= i < |es| ==> Shown(es[i])
    decreases |es|
  {
    if es == [] then []
    else (if Shown(es[0]) then [ItemOf(es[0])] else []) + Items(es[1..])
  }

  /** Reference definition: the shown entries, in order. */
  function Visible(es: seq<Entry>): (r: seq<Entry>)
    ensures forall i :: 0 <= i < |r| ==> Shown(r[i])
    decreases |es|
  {
    if es == [] then []
    else if Shown(es[0]) then [es[0]] + Visible(es[1..])
    else Visible(es[1..])
  }

  /** The listing of a concatenation is the concatenation of the listings:
      items keep the relative order of their entries. */
  lemma {:induction false} ItemsAppend(a: seq<Entry>, b: seq<Entry>)
    ensures Items(a + b) == Items(a) + Items(b)
    decreases |a|
  {
    if a == [] {
      assert a + b == b;
    } else {
      var head := if Shown(a[0]) then [ItemOf(a[0])] else [];
      assert (a + b)[0] == a[0];
      assert (a + b)[1..] == a[1..] + b;
      assert Items(a + b) == head + Items(a[1..] + b);
      ItemsAppend(a[1..], b);
      assert Items(a) == head + Items(a[1..]);
    }
  }

  /** The i-th item renders the i-th shown entry. */
  lemma {:induction false} ItemsRenderVisible(es: seq<Entry>)
    ensures |Items(es)| == |Visible(es)|
    ensures forall i :: 0 <= i < |Items(es)| ==> Items(es)[i] == ItemOf(Visible(es)[i])
    decreases |es|
  {
    if es != [] {
      ItemsRenderVisible(es[1..]);
      var rest, vrest := Items(es[1..]), Visible(es[1..]);
      if Shown(es[0]) {
        assert Items(es) == [ItemOf(es[0])] + rest;
        assert Visible(es) == [es[0]] + vrest;
        forall i | 0 <= i < |Items(es)|
          ensures Items(es)[i] == ItemOf(Visible(es)[i])
        {
          if i > 0 {
            assert Items(es)[i] == rest[i - 1];
            assert Visible(es)[i] == vrest[i - 1];
          }
        }
      } else {
        assert Items(es) == rest;
        assert Visible(es) == vrest;
      }
    }
  }

  /** A file link appears exactly when an entry of type `file` has that path
      and name; a folder appears exactly when an entry of type `dir` has
      that name. */
  lemma {:induction false} ItemsMembership(es: seq<Entry>, p: string, n: string)
    ensures FileLink(p, n) in Items(es) <==>
            exists i :: 0 <= i < |es| && es[i] == Entry(n, p, "file")
    ensures Folder(n) in Items(es) <==>
            exists i :: 0 <= i < |es| && es[i].kind == "dir" && es[i].name == n
    decreases |es|
  {
    if es != [] {
      ItemsMembership(es[1..], p, n);
      if exists i :: 0 <= i < |es[1..]| && es[1..][i] == Entry(n, p, "file") {
        var i :| 0 <= i < |es[1..]| && es[1..][i] == Entry(n, p, "file");
        assert es[i + 1] == Entry(n, p, "file");
      }
      if exists i :: 0 <= i < |es[1..]| && es[1..][i].kind == "dir" && es[1..][i].name == n {
        var i :| 0 <= i < |es[1..]| && es[1..][i].kind == "dir" && es[1..][i].name == n;
        assert es[i + 1].kind == "dir";
      }
      if exists i :: 0 <= i < |es| && es[i] == Entry(n, p, "file") {
        var i :| 0 <= i < |es| && es[i] == Entry(n, p, "file");
        if i > 0 {
          assert es[1..][i - 1] == Entry(n, p, "file");
        }
      }
      if exists i :: 0 <= i < |es| && es[i].kind == "dir" && es[i].name == n {
        var i :| 0 <= i < |es| && es[i].kind == "dir" && es[i].name == n;
        if i > 0 {
          assert es[1..][i - 1].kind == "dir";
        }
      }
    }
  }

  /** Entries of any other type contribute nothing. */
  lemma {:induction false} ItemsSkipOthers(es: seq<Entry>)
    requires forall i :: 0 <= i < |es| ==> !Shown(es[i])
    ensures Items(es) == []
    decreases |es|
  {
    if es != [] {
      ItemsSkipOthers(es[1..]);
    }
  }

  /** The card of one open pull request. Its merge form posts back the
      number exactly as shown, which reads back to the pull request's
      number, and the default merge title for it. */
  function CardOf(p: PullInfo): (c: Card)
    ensures c.formPrNumber == c.number
    ensures c.formCommitTitle == MergeTitlePrefix + c.number
    ensures c.description == Or(p.body, "No description")
    ensures c.title == p.title && c.headRef == p.headRef && c.baseRef == p.baseRef
    ensures p.number >= 0 ==> Decimal.AllDigits(c.number) && Decimal.ToNat(c.number) == p.number
  {
    var n := Decimal.OfInt(p.number);
    var c := Card(n, p.title, Or(p.body, "No description"), p.headRef, p.baseRef,
                  n, MergeTitlePrefix + n);
    if p.number >= 0 then Decimal.RoundTrip(p.number); c else c
  }

  /** The `prs.forEach` fold: one card per pull request, in order. */
  function Cards(ps: seq<PullInfo>): (cs: seq<Card>)
    ensures |cs| == |ps|
    ensures forall i :: 0 <= i < |ps| ==> cs[i] == CardOf(ps[i])
  {
    seq(|ps|, i requires 0 <= i < |ps| => CardOf(ps[i]))
  }

  /** Cards keep the order of the listing: the cards of a concatenation are
      the concatenation of the cards. */
  lemma CardsAppend(a: seq<PullInfo>, b: seq<PullInfo>)
    ensures Cards(a + b) == Cards(a) + Cards(b)
  {
    var l, r := Cards(a + b), Cards(a) + Cards(b);
    assert |l| == |r|;
    forall i | 0 <= i < |l|
      ensures l[i] == r[i]
    {
      if i < |a| {
        assert (a + b)[i] == a[i];
      } else {
        assert (a + b)[i] == b[i - |a|];
      }
    }
  }
}
