/** The loaded NFT list: incremental de-duplication by address and the raw-row
    offset of the next page (src/engine/nft.rs). */
module NftModel {
  import opened Basics

  datatype Item = Item(address: string, content: string)

  datatype Page = Page(items: seq<Item>, rawCount: nat, hasMore: bool)

  datatype Nfts = Nfts(items: seq<Item>, offset: u64, hasMore: bool)

  /** No earlier item has this address. */
  predicate IsFirst(s: seq<Item>, i: nat)
    requires i < |s|
  {
    forall j :: 0 <= j < i ==> s[j].address != s[i].address
  }

  /** The reference: the items that are the first of their address, in order. */
  function FirstOccurrences(s: seq<Item>): seq<Item> {
    if s == [] then []
    else FirstOccurrences(s[..|s| - 1]) + if IsFirst(s, |s| - 1) then [s[|s| - 1]] else []
  }

  ghost predicate Has(s: seq<Item>, address: string) {
    exists i :: 0 <= i < |s| && s[i].address == address
  }

  lemma {:induction false} SameAddresses(s: seq<Item>, address: string)
    ensures Has(FirstOccurrences(s), address) <==> Has(s, address)
  {
    if s != [] {
      var front, last := s[..|s| - 1], s[|s| - 1];
      SameAddresses(front, address);
      SameAddresses(front, last.address);
      var kept := FirstOccurrences(front);
      assert s == front + [last];
      assert Has(s, address) <==> Has(front, address) || last.address == address by {
        HasAppend(front, last, address);
      }
      assert IsFirst(s, |s| - 1) <==> !Has(front, last.address);
      if IsFirst(s, |s| - 1) {
        HasAppend(kept, last, address);
      } else {
        assert FirstOccurrences(s) == kept;
      }
    }
  }

  lemma HasAppend(s: seq<Item>, last: Item, address: string)
    ensures Has(s + [last], address) <==> Has(s, address) || last.address == address
  {
    var longer := s + [last];
    if Has(s, address) {
      var i :| 0 <= i < |s| && s[i].address == address;
      assert longer[i].address == address;
    }
    assert longer[|s|] == last;
  }

  /** No two kept items share an address. */
  lemma {:induction false} FirstOccurrencesDistinct(s: seq<Item>, i: nat, j: nat)
    requires i < j < |FirstOccurrences(s)|
    ensures FirstOccurrences(s)[i].address != FirstOccurrences(s)[j].address
  {
    var front, last := s[..|s| - 1], s[|s| - 1];
    var kept := FirstOccurrences(front);
    if j < |kept| {
      FirstOccurrencesDistinct(front, i, j);
    } else {
      SameAddresses(front, last.address);
      assert kept[i] == FirstOccurrences(s)[i];
      assert IsFirst(s, |s| - 1) <==> !Has(front, last.address);
    }
  }

  /** `u64::try_from(raw_count).unwrap_or(u64::MAX)`. */
  function Clamp(n: nat): u64 {
    if n > U64_MAX then U64_MAX else n
  }

  /** Appends the items whose address is not there yet, one after the other. */
  function Extend(kept: seq<Item>, more: seq<Item>): seq<Item> {
    if more == [] then kept
    else
      var r := Extend(kept, more[..|more| - 1]);
      var last := more[|more| - 1];
      if exists i :: 0 <= i < |r| && r[i].address == last.address then r else r + [last]
  }

  /** `apply_refreshed_nft_page`. */
  function Refreshed(page: Page): Nfts {
    Nfts(Extend([], page.items), Clamp(page.rawCount), page.hasMore)
  }

  /** `apply_nft_page`. */
  function WithPage(n: Nfts, page: Page): Nfts {
    Nfts(Extend(n.items, page.items), SaturatingAdd(n.offset, Clamp(page.rawCount)), page.hasMore)
  }

  class NftList {
    var items: seq<Item>
    var offset: u64
    var hasMore: bool

    function View(): Nfts
      reads this
    {
      Nfts(items, offset, hasMore)
    }

    constructor ()
      ensures View() == Nfts([], 0, false)
    {
      items, offset, hasMore := [], 0, false;
    }

    method ApplyRefreshedNftPage(page: Page)
      modifies this
      ensures View() == Refreshed(page)
    {
      items := Filtered([], page.items);
      offset := Clamp(page.rawCount);
      hasMore := page.hasMore;
    }

    method ApplyNftPage(page: Page) returns (added: int)
      modifies this
      ensures View() == WithPage(old(View()), page) && added == |items| - |old(items)|
    {
      var previous := |items|;
      items := Filtered(items, page.items);
      offset := SaturatingAdd(offset, Clamp(page.rawCount));
      hasMore := page.hasMore;
      added := |items| - previous;
    }
  }

  /** Filters through a set of the addresses seen so far. */
  method Filtered(kept: seq<Item>, more: seq<Item>) returns (r: seq<Item>)
    ensures r == Extend(kept, more)
  {
    r := kept;
    var seen: set<string> := set i | 0 <= i < |kept| :: kept[i].address;
    for i := 0 to |more|
      invariant r == Extend(kept, more[..i])
      invariant forall a :: a in seen <==> Has(r, a)
    {
      var item := more[i];
      assert more[..i + 1][..i] == more[..i];
      assert item.address in seen <==> Has(r, item.address);
      if item.address !in seen {
        forall a ensures Has(r + [item], a) <==> a in seen || a == item.address {
          HasAppend(r, item, a);
        }
        seen := seen + {item.address};
        r := r + [item];
      }
    }
    assert more[..|more|] == more;
  }

  // ----- folding pages -----

  lemma OneMore(s: seq<Item>, item: Item)
    ensures FirstOccurrences(s + [item])
         == FirstOccurrences(s) + if Has(FirstOccurrences(s), item.address) then [] else [item]
  {
    var longer := s + [item];
    assert longer[..|longer| - 1] == s;
    SameAddresses(s, item.address);
    assert IsFirst(longer, |s|) <==> !Has(s, item.address);
  }

  /** Extending a de-duplicated list equals de-duplicating everything at once. */
  lemma {:induction false} ExtendIsFirstOccurrences(loaded: seq<Item>, more: seq<Item>)
    ensures Extend(FirstOccurrences(loaded), more) == FirstOccurrences(loaded + more)
  {
    if more == [] {
      assert loaded + more == loaded;
    } else {
      var front, last := more[..|more| - 1], more[|more| - 1];
      ExtendIsFirstOccurrences(loaded, front);
      OneMore(loaded + front, last);
      assert loaded + more == (loaded + front) + [last];
      assert Has(FirstOccurrences(loaded + front), last.address) <==>
             exists i :: 0 <= i < |FirstOccurrences(loaded + front)| && FirstOccurrences(loaded + front)[i].address == last.address;
    }
  }

  /** The list after a refresh and further pages, one page at a time. */
  function Folded(pages: seq<Page>): Nfts
    requires pages != []
  {
    if |pages| == 1 then Refreshed(pages[0]) else WithPage(Folded(pages[..|pages| - 1]), pages[|pages| - 1])
  }

  function AllItems(pages: seq<Page>): seq<Item> {
    if pages == [] then [] else AllItems(pages[..|pages| - 1]) + pages[|pages| - 1].items
  }

  function RawRows(pages: seq<Page>): nat {
    if pages == [] then 0 else RawRows(pages[..|pages| - 1]) + pages[|pages| - 1].rawCount
  }

  /** A refresh followed by page loads keeps the first occurrence of every address
      in the concatenation of all pages, the offset is the saturated number of raw
      rows read, and the last page says whether there is more. */
  lemma {:induction false} FoldIsFirstOccurrences(pages: seq<Page>)
    requires pages != []
    ensures Folded(pages) == Nfts(FirstOccurrences(AllItems(pages)), Clamp(RawRows(pages)), pages[|pages| - 1].hasMore)
  {
    var n := |pages| - 1;
    if n == 0 {
      assert pages[..0] == [] && [] + pages[0].items == pages[0].items;
      ExtendIsFirstOccurrences([], pages[0].items);
    } else {
      FoldIsFirstOccurrences(pages[..n]);
      ExtendIsFirstOccurrences(AllItems(pages[..n]), pages[n].items);
    }
  }
}
