/** The list-section markup both mechanics formatters build: a heading, then
    a `<ul>` with one `<li>` per item, omitted entirely for an empty list. */
module Html {

  /** `items.forEach(x => html += `<li>${x}</li>`)`, as the text appended. */
  function ListItems(items: seq<string>): string {
    if items == [] then "" else ListItems(items[..|items| - 1]) + "<li>" + items[|items| - 1] + "</li>"
  }

  /** Item markup is a homomorphism from lists to strings: one `<li>` per
      item, in list order, nothing between them. */
  lemma {:induction false} ListItemsAppend(xs: seq<string>, ys: seq<string>)
    ensures ListItems(xs + ys) == ListItems(xs) + ListItems(ys)
    decreases |ys|
  {
    if ys == [] {
      assert xs + ys == xs;
    } else {
      var init := ys[..|ys| - 1];
      assert (xs + ys)[..|xs + ys| - 1] == xs + init;
      ListItemsAppend(xs, init);
    }
  }

  /** The markup of one item on its own. */
  lemma ListItemsSingle(x: string)
    ensures ListItems([x]) == "<li>" + x + "</li>"
  {
    assert [x][..0] == [];
  }

  /** Every item adds its own length plus the nine characters of its tags. */
  lemma {:induction false} ListItemsLength(items: seq<string>)
    ensures |ListItems(items)| >= 9 * |items|
  {
    if items != [] {
      ListItemsLength(items[..|items| - 1]);
    }
  }

  /** A heading and its list, or nothing when the list is empty. */
  function Section(heading: string, items: seq<string>): string {
    if items == [] then "" else heading + "<ul>" + ListItems(items) + "</ul>"
  }

  /** A section is empty exactly when its list is, and otherwise opens with
      its heading. */
  lemma SectionShape(heading: string, items: seq<string>)
    ensures Section(heading, items) == "" <==> items == []
    ensures items != [] ==> Section(heading, items)[..|heading|] == heading
  {
    if items != [] {
      var rest := "<ul>" + ListItems(items) + "</ul>";
      assert Section(heading, items) == heading + rest;
      assert |rest| > 0;
    }
  }

  /** A heading tag opens with `<h`. */
  predicate IsHeading(h: string) {
    |h| >= 2 && h[0] == '<' && h[1] == 'h'
  }

  /** `html || fallback`: the fallback replaces empty markup. */
  function OrFallback(html: string, fallback: string): string {
    if |html| == 0 then fallback else html
  }

  /** Empty, or opening with a heading tag. */
  predicate EmptyOrHeading(x: string) {
    |x| == 0 || IsHeading(x)
  }

  /** Four pieces of markup, each empty or opening with a heading, followed
      by the `||` fallback. */
  lemma FourParts(a: string, b: string, c: string, d: string, fallback: string)
    requires EmptyOrHeading(a) && EmptyOrHeading(b) && EmptyOrHeading(c) && EmptyOrHeading(d)
    requires |fallback| >= 2 && fallback[1] != 'h'
    ensures OrFallback(a + b + c + d, fallback) == fallback <==> a == [] && b == [] && c == [] && d == []
    ensures (a + b + c + d)[..|a|] == a
    ensures (a + b + c + d)[|a + b + c|..] == d
  {
    var html := a + b + c + d;
    if |html| != 0 {
      if a != [] {
        assert html[1] == a[1];
      } else if b != [] {
        assert html == b + c + d;
        assert html[1] == b[1];
      } else if c != [] {
        assert html == c + d;
        assert html[1] == c[1];
      } else {
        assert html == d;
      }
    }
    assert html == a + (b + c + d);
    assert html == (a + b + c) + d;
  }

  /** A section is empty or opens with its heading. */
  lemma SectionOpens(heading: string, items: seq<string>)
    requires IsHeading(heading)
    ensures EmptyOrHeading(Section(heading, items))
    ensures Section(heading, items) == [] <==> items == []
    ensures items != [] ==> |heading| <= |Section(heading, items)| && Section(heading, items)[..|heading|] == heading
  {
    SectionShape(heading, items);
    if items != [] {
      var s := Section(heading, items);
      assert s[0] == s[..|heading|][0] && s[1] == s[..|heading|][1];
    }
  }

  /** Four sections in a row, any of them possibly empty, followed by the
      `||` fallback: the markup is empty exactly when every list is, it then
      differs from any fallback that does not open with a heading, the first
      section comes first and the last section last. */
  lemma FourSections(h1: string, h2: string, h3: string, h4: string,
                     l1: seq<string>, l2: seq<string>, l3: seq<string>, l4: seq<string>,
                     fallback: string)
    requires IsHeading(h1) && IsHeading(h2) && IsHeading(h3) && IsHeading(h4)
    requires |fallback| >= 2 && fallback[1] != 'h'
    ensures var html := Section(h1, l1) + Section(h2, l2) + Section(h3, l3) + Section(h4, l4);
      && (OrFallback(html, fallback) == fallback <==> l1 == [] && l2 == [] && l3 == [] && l4 == [])
      && (l1 != [] ==> OrFallback(html, fallback)[..|h1|] == h1)
      && (l4 != [] ==>
            var e := Section(h4, l4);
            |e| <= |html| && OrFallback(html, fallback)[|html| - |e|..] == e)
  {
    var a, b, c, d := Section(h1, l1), Section(h2, l2), Section(h3, l3), Section(h4, l4);
    SectionOpens(h1, l1);
    SectionOpens(h2, l2);
    SectionOpens(h3, l3);
    SectionOpens(h4, l4);
    FourParts(a, b, c, d, fallback);
    var html := a + b + c + d;
    if l1 != [] {
      assert html[..|h1|] == html[..|a|][..|h1|];
    }
  }

  /** The `if (list?.length > 0) { html += heading + '<ul>'; forEach ...; html += '</ul>' }` step. */
  method AppendSection(html: string, heading: string, items: seq<string>) returns (r: string)
    ensures r == html + Section(heading, items)
  {
    r := html;
    if |items| > 0 {
      r := r + heading + "<ul>";
      var i := 0;
      while i < |items|
        invariant 0 <= i <= |items|
        invariant r == html + heading + "<ul>" + ListItems(items[..i])
      {
        assert items[..i + 1][..i] == items[..i];
        r := r + "<li>" + items[i] + "</li>";
        i := i + 1;
      }
      assert items[..i] == items;
      r := r + "</ul>";
    }
  }
}
