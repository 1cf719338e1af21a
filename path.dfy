/** Go's path.Clean, by its documented lexical rules, on rooted paths (the only kind
    the program cleans): empty and "." elements are dropped, ".." removes the element
    before it and is dropped at the root, and the result has no trailing slash except
    for "/" itself. */
module Path {
  import opened Strings

  /** An element a clean path can keep. */
  predicate IsCleanElement(e: string)
  {
    e != "" && e != "." && e != ".." && '/' !in e
  }

  predicate AllCleanElements(elems: seq<string>)
  {
    forall k :: 0 <= k < |elems| ==> IsCleanElement(elems[k])
  }

  /** Applies one element to the elements kept so far. */
  function Step(kept: seq<string>, elem: string): seq<string>
  {
    if elem == "" || elem == "." then kept
    else if elem == ".." then (if kept == [] then [] else kept[..|kept| - 1])
    else kept + [elem]
  }

  /** Applies the elements left to right. */
  function Resolve(kept: seq<string>, elems: seq<string>): seq<string>
    decreases |elems|
  {
    if elems == [] then kept else Resolve(Step(kept, elems[0]), elems[1..])
  }

  /** The elements path.Clean keeps of a rooted path. */
  function CleanElements(p: string): (elems: seq<string>)
    requires |p| >= 1 && p[0] == '/'
    ensures AllCleanElements(elems)
  {
    ResolveKeepsClean([], Split(p[1..], '/'));
    Resolve([], Split(p[1..], '/'))
  }

  /** path.Clean of a rooted path. */
  function CleanRooted(p: string): (c: string)
    requires |p| >= 1 && p[0] == '/'
    ensures |c| >= 1 && c[0] == '/'
  {
    "/" + Join(CleanElements(p), '/')
  }

  lemma {:induction false} ResolveKeepsClean(kept: seq<string>, elems: seq<string>)
    requires AllCleanElements(kept)
    requires forall k :: 0 <= k < |elems| ==> '/' !in elems[k]
    ensures AllCleanElements(Resolve(kept, elems))
    decreases |elems|
  {
    if elems != [] {
      var next := Step(kept, elems[0]);
      assert AllCleanElements(next);
      ResolveKeepsClean(next, elems[1..]);
    }
  }

  /** Clean elements are all kept, in order. */
  lemma {:induction false} ResolveCleanElements(kept: seq<string>, elems: seq<string>)
    requires AllCleanElements(elems)
    ensures Resolve(kept, elems) == kept + elems
    decreases |elems|
  {
    if elems != [] {
      ResolveCleanElements(kept + [elems[0]], elems[1..]);
      assert kept + [elems[0]] + elems[1..] == kept + elems;
    }
  }

  /** A rooted path written from clean elements cleans back to those elements. */
  lemma CleanElementsOfJoin(elems: seq<string>)
    requires AllCleanElements(elems)
    ensures CleanElements("/" + Join(elems, '/')) == elems
  {
    var p := "/" + Join(elems, '/');
    assert p[1..] == Join(elems, '/');
    if elems == [] {
      assert Split("", '/') == [""];
      assert Resolve([], [""]) == [];
    } else {
      JoinSplit(elems, '/');
      ResolveCleanElements([], elems);
    }
  }

  /** Cleaning a clean path changes nothing. */
  lemma CleanIdempotent(p: string)
    requires |p| >= 1 && p[0] == '/'
    ensures CleanRooted(CleanRooted(p)) == CleanRooted(p)
  {
    CleanElementsOfJoin(CleanElements(p));
  }

  /** A doubled leading slash cleans away. */
  lemma LeadingSlashCleansAway(p: string)
    ensures CleanRooted("//" + p) == CleanRooted("/" + p)
  {
    var s := "/" + p;
    assert ("//" + p)[1..] == s;
    assert ("/" + p)[1..] == p;
    assert IndexOf(s, '/') == 0;
    assert s[1..] == p;
    assert Split(s, '/') == [""] + Split(p, '/');
  }

  /** Resolving two runs of elements one after the other. */
  lemma {:induction false} ResolveAppend(kept: seq<string>, xs: seq<string>, ys: seq<string>)
    ensures Resolve(kept, xs + ys) == Resolve(Resolve(kept, xs), ys)
    decreases |xs|
  {
    if xs == [] {
      assert xs + ys == ys;
    } else {
      assert (xs + ys)[0] == xs[0];
      assert (xs + ys)[1..] == xs[1..] + ys;
      ResolveAppend(Step(kept, xs[0]), xs[1..], ys);
    }
  }

  /** A trailing slash cleans away. */
  lemma TrailingSlashCleansAway(p: string)
    requires |p| >= 1 && p[0] == '/'
    ensures CleanElements(p + "/") == CleanElements(p)
    ensures CleanRooted(p + "/") == CleanRooted(p)
  {
    assert (p + "/")[1..] == p[1..] + "/";
    SplitAppendSeparator(p[1..], '/');
    ResolveAppend([], Split(p[1..], '/'), [""]);
  }
}
