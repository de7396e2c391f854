/** The footer's "Quick Links" (src/components/Footer.tsx): each item is
    turned into a link target by a string expression rather than looked up
    in the header's table. */
module Footer {
  import opened Types
  import opened Routes
  import opened Navbar

  /** The labels, in display order. */
  const QuickLinks: seq<string> := ["Home", "About", "Events", "Projects", "Join Us", "Contact"]

  predicate IsUpper(c: char) {
    'A' <= c <= 'Z'
  }

  function LowerChar(c: char): (r: char)
    ensures !IsUpper(r)
    ensures !IsUpper(c) ==> r == c
    ensures IsUpper(c) ==> r as int - c as int == 'a' as int - 'A' as int
  {
    if IsUpper(c) then (c as int + ('a' as int - 'A' as int)) as char else c
  }

  /** `toLowerCase()` on the letters the labels use (A to Z). */
  function ToLower(s: string): (r: string)
    ensures |r| == |s|
    ensures forall i :: 0 <= i < |r| ==> !IsUpper(r[i])
    ensures forall i :: 0 <= i < |s| && !IsUpper(s[i]) ==> r[i] == s[i]
    ensures forall i :: 0 <= i < |s| && IsUpper(s[i]) ==> r[i] as int == s[i] as int + ('a' as int - 'A' as int)
  {
    seq(|s|, i requires 0 <= i < |s| => LowerChar(s[i]))
  }

  /** `replace(" ", "")`: a string pattern replaces its first occurrence
      only, so just the first space goes (RemoveFirstSpaceAfter). */
  function RemoveFirstSpace(s: string): (r: string)
    ensures |r| <= |s| && |s| <= |r| + 1
  {
    if s == [] then []
    else if s[0] == ' ' then s[1..]
    else [s[0]] + RemoveFirstSpace(s[1..])
  }

  /** Without a space nothing changes, and no character is ever added. */
  lemma {:induction false} RemoveFirstSpaceKeeps(s: string)
    ensures ' ' !in s ==> RemoveFirstSpace(s) == s
    ensures forall c :: c in RemoveFirstSpace(s) ==> c in s
    decreases |s|
  {
    if s != [] && s[0] != ' ' {
      RemoveFirstSpaceKeeps(s[1..]);
      assert s == [s[0]] + s[1..];
    }
  }

  /** What goes is the first space: everything before and after it stays,
      later spaces included. */
  lemma {:induction false} RemoveFirstSpaceAfter(a: string, b: string)
    requires ' ' !in a
    ensures RemoveFirstSpace(a + " " + b) == a + b
    decreases |a|
  {
    var s := a + " " + b;
    if a != [] {
      RemoveFirstSpaceAfter(a[1..], b);
      assert s[0] == a[0] && a[0] != ' ';
      assert s[1..] == a[1..] + " " + b;
      assert RemoveFirstSpace(s) == [a[0]] + RemoveFirstSpace(s[1..]);
      assert a + b == [a[0]] + (a[1..] + b);
    } else {
      assert s == " " + b;
      assert s[0] == ' ' && s[1..] == b;
    }
  }

  /** The target of the quick link labelled `item`: "/" for "Home", else
      "/" followed by the item lowercased with its first space dropped. */
  function QuickLinkPath(item: string): (r: string)
    ensures |r| >= 1 && r[0] == '/'
    ensures item == "Home" ==> r == "/"
    ensures item != "Home" ==> forall c :: c in r[1..] ==> !IsUpper(c)
  {
    if item == "Home" then "/"
    else
      RemoveFirstSpaceKeeps(ToLower(item));
      assert ("/" + RemoveFirstSpace(ToLower(item)))[1..] == RemoveFirstSpace(ToLower(item));
      "/" + RemoveFirstSpace(ToLower(item))
  }

  /** Lowercasing a literal, checked position by position. */
  lemma ToLowerIs(s: string, t: string)
    requires |s| == |t| && forall i :: 0 <= i < |s| ==> LowerChar(s[i]) == t[i]
    ensures ToLower(s) == t
  {
  }

  /** A label whose lowercase form is `a`, a space, then `b`, with no space
      in `a`, derives "/" followed by `a` and `b`. */
  lemma SpacedLabelPath(item: string, a: string, b: string)
    requires item != "Home" && ' ' !in a
    requires |item| == |a| + 1 + |b|
    requires forall i :: 0 <= i < |item| ==> LowerChar(item[i]) == (a + " " + b)[i]
    ensures QuickLinkPath(item) == "/" + (a + b)
  {
    ToLowerIs(item, a + " " + b);
    RemoveFirstSpaceAfter(a, b);
  }

  /** Only the first of several spaces is removed. (The label is passed
      as a parameter so that the verifier reasons about it step by step.) */
  lemma OnlyFirstSpaceRemoved(item: string)
    requires item == "Join Us Now"
    ensures QuickLinkPath(item) == "/joinus now"
  {
    var a, b := "join", "us now";
    assert forall i :: 0 <= i < |item| ==> LowerChar(item[i]) == (a + " " + b)[i];
    SpacedLabelPath(item, a, b);
  }

  /** The path derived from a label without spaces is its lowercase form. */
  lemma PathWithoutSpace(item: string, lower: string)
    requires item != "Home" && |item| == |lower|
    requires forall i :: 0 <= i < |item| ==> LowerChar(item[i]) == lower[i]
    requires ' ' !in lower
    ensures QuickLinkPath(item) == "/" + lower
  {
    ToLowerIs(item, lower);
    RemoveFirstSpaceKeeps(lower);
  }

  /** The labels without a space, with their lowercase forms. */
  lemma PlainLabelPath(item: string, lower: string)
    requires || (item == "About" && lower == "about")
             || (item == "Events" && lower == "events")
             || (item == "Projects" && lower == "projects")
             || (item == "Contact" && lower == "contact")
    ensures QuickLinkPath(item) == "/" + lower
  {
    assert forall k :: 0 <= k < |item| ==> LowerChar(item[k]) == lower[k];
    PathWithoutSpace(item, lower);
  }

  /** The footer and the header list the same six labels in the same order,
      and five of the footer's derived paths are the header's paths. */
  lemma QuickLinksMatchHeader()
    ensures |QuickLinks| == |NavItems|
    ensures forall i :: 0 <= i < |QuickLinks| ==> QuickLinks[i] == NavItems[i].name
    ensures forall i :: 0 <= i < |QuickLinks| && QuickLinks[i] != "Join Us" ==>
      QuickLinkPath(QuickLinks[i]) == NavItems[i].path
  {
    forall i | 0 <= i < |QuickLinks|
      ensures QuickLinks[i] == NavItems[i].name
      ensures QuickLinks[i] != "Join Us" ==> QuickLinkPath(QuickLinks[i]) == NavItems[i].path
    {
      if i == 0 {
      } else if i == 4 {
        assert QuickLinks[i] == "Join Us";
      } else {
        PlainLabelPath(QuickLinks[i], NavItems[i].path[1..]);
      }
    }
  }

  /** "Join Us" yields "/joinus": not the header's "/join", and not a route
      the router declares, so this footer link reaches no page. */
  lemma JoinUsLinkIsBroken(item: string)
    requires item == "Join Us"
    ensures QuickLinkPath(item) == "/joinus"
    ensures PathFor(item, NavItems) == Some("/join")
    ensures !IsRoute(QuickLinkPath(item))
  {
    var a, b := "join", "us";
    assert forall i :: 0 <= i < |item| ==> LowerChar(item[i]) == (a + " " + b)[i];
    SpacedLabelPath(item, a, b);
    assert "/" + (a + b) == "/joinus";
    assert "/joinus" !in DeclaredPaths;
    NavItemsWellFormed();
  }

  /** The target the footer evidently means: the header's path for the same
      label, with the derived path kept only for a label the header lacks. */
  function IntendedQuickLinkPath(item: string): (r: string)
    ensures PathFor(item, NavItems).Some? ==> r == PathFor(item, NavItems).value
    ensures PathFor(item, NavItems).None? ==> r == QuickLinkPath(item)
  {
    match PathFor(item, NavItems)
    case Some(path) => path
    case None => QuickLinkPath(item)
  }

  /** With that lookup every quick link leads where the header's link of the
      same label leads, and so to a declared route. */
  lemma QuickLinksReachPages()
    ensures forall i :: 0 <= i < |QuickLinks| ==>
      IntendedQuickLinkPath(QuickLinks[i]) == NavItems[i].path && IsRoute(IntendedQuickLinkPath(QuickLinks[i]))
  {
    QuickLinksMatchHeader();
    NavItemsWellFormed();
    forall i | 0 <= i < |QuickLinks|
      ensures IntendedQuickLinkPath(QuickLinks[i]) == NavItems[i].path
    {
      PathForEntry(NavItems, i);
    }
  }
}
