/** ShiftPath: splits a URL path into its first segment (head) and the rest (tail),
    after cleaning it as a rooted path. */
module ShiftPath {
  import opened Strings
  import opened Path

  /** shiftpath.ShiftPath. The head holds no slash; the tail starts with one; together
      they rebuild the cleaned path. */
  function ShiftPath(p: string): (r: (string, string))
    ensures '/' !in r.0
    ensures |r.1| >= 1 && r.1[0] == '/'
    ensures var c := CleanRooted("/" + p);
      if '/' in c[1..] then "/" + r.0 + r.1 == c else "/" + r.0 == c && r.1 == "/"
  {
    SplitCleaned(CleanRooted("/" + p))
  }

  /** The split ShiftPath makes of the cleaned path c: up to the first slash after the
      leading one, or all of it when there is none. */
  function SplitCleaned(c: string): (r: (string, string))
    requires |c| >= 1 && c[0] == '/'
    ensures '/' !in r.0
    ensures |r.1| >= 1 && r.1[0] == '/'
    ensures if '/' in c[1..] then "/" + r.0 + r.1 == c else "/" + r.0 == c && r.1 == "/"
  {
    var i := IndexOf(c[1..], '/') + 1;
    if i <= 0 then (c[1..], "/")
    else
      assert c == "/" + c[1..i] + c[i..];
      (c[1..i], c[i..])
  }

  /** The head is the first element the cleaned path keeps ("" for the root), and the
      tail is "/" followed by the remaining elements. */
  lemma {:induction false} ShiftPathElements(p: string)
    ensures var elems := CleanElements("/" + p);
      ShiftPath(p) == if elems == [] then ("", "/") else (elems[0], "/" + Join(elems[1..], '/'))
  {
    var elems := CleanElements("/" + p);
    var c := CleanRooted("/" + p);
    assert c == "/" + Join(elems, '/');
    if elems == [] {
      assert c == "/" + "";
      SplitCleanedWhole("");
    } else if |elems| == 1 {
      assert c == "/" + elems[0];
      SplitCleanedWhole(elems[0]);
      assert elems[1..] == [];
      assert "/" + Join(elems[1..], '/') == "/";
    } else {
      var head, rest := elems[0], Join(elems[1..], '/');
      assert c == "/" + head + "/" + rest;
      SplitCleanedAt(head, rest);
    }
  }

  /** A cleaned path with one element or none is all head. */
  lemma SplitCleanedWhole(head: string)
    requires '/' !in head
    ensures SplitCleaned("/" + head) == (head, "/")
  {
    assert ("/" + head)[1..] == head;
  }

  /** A cleaned path with more elements splits at the slash after the first. */
  lemma SplitCleanedAt(head: string, rest: string)
    requires '/' !in head
    ensures SplitCleaned("/" + head + "/" + rest) == (head, "/" + rest)
  {
    var c := "/" + head + "/" + rest;
    assert c[1..] == head + ['/'] + rest;
    PrefixIndex(head, '/', rest);
    var i := |head| + 1;
    assert c[1..i] == head;
    assert c[i..] == "/" + rest;
  }

  /** A non-root head is a real path element: never empty, "." or "..". */
  lemma HeadIsCleanElement(p: string)
    requires CleanRooted("/" + p) != "/"
    ensures IsCleanElement(ShiftPath(p).0)
  {
    ShiftPathElements(p);
    var elems := CleanElements("/" + p);
    assert elems != [];
  }

  /** The tail is already clean, so shifting it again continues with the next element. */
  lemma TailIsClean(p: string)
    ensures CleanRooted(ShiftPath(p).1) == ShiftPath(p).1
  {
    ShiftPathElements(p);
    var elems := CleanElements("/" + p);
    CleanElementsOfJoin(if elems == [] then [] else elems[1..]);
  }

  /** A leading slash is always prepended before cleaning, so adding one changes nothing. */
  lemma LeadingSlashIgnored(p: string)
    ensures ShiftPath("/" + p) == ShiftPath(p)
  {
    LeadingSlashCleansAway(p);
    assert "/" + ("/" + p) == "//" + p;
  }

  /** path.Clean drops a trailing slash before the split, so adding one changes nothing. */
  lemma TrailingSlashIgnored(p: string)
    ensures ShiftPath(p + "/") == ShiftPath(p)
  {
    TrailingSlashCleansAway("/" + p);
    assert "/" + (p + "/") == ("/" + p) + "/";
  }

  /** The cases the package's unit test checks. */
  lemma UnitTestRoot()
    ensures ShiftPath("/") == ("", "/")
  {
    LeadingSlashIgnored("");
    ShiftPathElements("");
    assert "/" + "" == "/";
    assert CleanElements("/") == [] by {
      assert Split("", '/') == [""];
    }
  }

  lemma UnitTestOneSegment()
    ensures ShiftPath("/foo") == ("foo", "/")
  {
    var elems := ["foo"];
    assert IsCleanElement("foo");
    ShiftCleanPath(elems);
    assert Join(elems, '/') == "foo";
    assert elems[1..] == [];
    LeadingSlashIgnored("foo");
    assert "/" + "foo" == "/foo";
  }

  lemma UnitTestTrailingSlash()
    ensures ShiftPath("/foo/") == ("foo", "/")
  {
    UnitTestOneSegment();
    TrailingSlashIgnored("/foo");
    assert "/foo" + "/" == "/foo/";
  }

  lemma UnitTestTwoSegments()
    ensures ShiftPath("/foo/baz") == ("foo", "/baz")
  {
    var p := "foo/baz";
    assert "/" + p == "/foo/baz";
    assert "/" + "baz" == "/baz";
    var elems := ["foo", "baz"];
    assert Join(elems, '/') == p by {
      assert Join(["baz"], '/') == "baz";
    }
    assert IsCleanElement("foo") && IsCleanElement("baz");
    ShiftCleanPath(elems);
    assert elems[1..] == ["baz"];
    LeadingSlashIgnored(p);
  }

  /** Shifting a path written from clean elements gives back its first element. */
  lemma ShiftCleanPath(elems: seq<string>)
    requires elems != [] && AllCleanElements(elems)
    ensures ShiftPath(Join(elems, '/')) == (elems[0], "/" + Join(elems[1..], '/'))
  {
    CleanElementsOfJoin(elems);
    ShiftPathElements(Join(elems, '/'));
  }
}
