/**
 * The desktop navigation: which link is marked active (a substring test on
 * the link's last path segment) and which colour class a link gets.
 */
module DesktopNavLinks {
  import opened Strings

  /** A piece of a split is a suffix of the text: what follows the last separator. */
  lemma {:induction false} SplitLastIsSuffix(s: string, sep: char, r: string)
    requires r == Last(Split(s, sep))
    ensures |r| <= |s| && s[|s| - |r|..] == r
    ensures |r| < |s| ==> s[|s| - |r| - 1] == sep
    decreases |s|, 1
  {
    if sep !in s {
      assert Split(s, sep) == [s];
    } else {
      SplitLastPast(s, sep, r);
    }
  }

  /** The step of the proof above: with a separator, the last piece is the last piece of what follows the first one. */
  lemma {:induction false} SplitLastPast(s: string, sep: char, r: string)
    requires sep in s && r == Last(Split(s, sep))
    ensures |r| <= |s| && s[|s| - |r|..] == r
    ensures |r| < |s| ==> s[|s| - |r| - 1] == sep
    decreases |s|, 0
  {
    var i := IndexOf(s, sep);
    var tail := Split(s[i + 1..], sep);
    assert Split(s, sep) == [s[..i]] + tail;
    LastCons(s[..i], tail);
    SplitLastIsSuffix(s[i + 1..], sep, r);
    SuffixAfter(s, sep, i, r);
  }

  /** A suffix of what follows position `i` that starts after a separator there, or is all of it, is one of `s` as well. */
  lemma SuffixAfter(s: string, sep: char, i: nat, r: string)
    requires i < |s| && s[i] == sep
    requires |r| <= |s[i + 1..]| && s[i + 1..][|s[i + 1..]| - |r|..] == r
    requires |r| < |s[i + 1..]| ==> s[i + 1..][|s[i + 1..]| - |r| - 1] == sep
    ensures |r| <= |s| && s[|s| - |r|..] == r
    ensures |r| < |s| ==> s[|s| - |r| - 1] == sep
  {
  }

  /** `linkPath.split("/").pop()`: the text after the last `/`, or the whole path without one. */
  function LastSegment(path: string): (r: string)
    ensures '/' !in r
    ensures |r| <= |path| && path[|path| - |r|..] == r
    ensures |r| < |path| ==> path[|path| - |r| - 1] == '/'
  {
    var r := Last(Split(path, '/'));
    SplitPiecesFree(path, '/');
    SplitLastIsSuffix(path, '/', r);
    r
  }

  /** `currentNavLink`: the last segment occurs somewhere in the current path. */
  function CurrentNavLink(url: string, linkPath: string): (r: bool)
    ensures r <==> exists k :: OccursAt(url, LastSegment(linkPath), k)
  {
    IncludesIffOccurs(url, LastSegment(linkPath));
    Includes(url, LastSegment(linkPath))
  }

  /** A link whose path ends in `/` has an empty last segment and is active everywhere. */
  lemma TrailingSlashAlwaysActive(url: string, linkPath: string)
    requires linkPath != [] && linkPath[|linkPath| - 1] == '/'
    ensures LastSegment(linkPath) == ""
    ensures CurrentNavLink(url, linkPath)
  {
    IncludesEmpty(url);
  }

  /** The page a link points to always marks that link active. */
  lemma OwnPageIsActive(path: string)
    ensures CurrentNavLink(path, path)
  {
    var r := LastSegment(path);
    assert OccursAt(path, r, |path| - |r|);
  }

  /**
   * The test is on substrings, not on segments: `/my/profile` is active on
   * `/profile-x`, for instance.
   */
  lemma SubstringNotSegment(linkPath: string, url: string, my: string, profile: string)
    requires my == "my" && profile == "profile"
    requires linkPath == "/" + my + "/" + profile && url == "/" + profile + "-x"
    ensures LastSegment(linkPath) == profile
    ensures CurrentNavLink(url, linkPath)
  {
    assert '/' !in profile;
    assert linkPath == "" + ['/'] + (my + ['/'] + profile);
    SplitAtFirst("", my + ['/'] + profile, '/');
    SplitAtFirst(my, profile, '/');
    assert Split(profile, '/') == [profile];
    assert Split(linkPath, '/') == ["", my, profile];
    assert OccursAt(url, profile, 1) by {
      assert url[1..1 + |profile|] == profile;
    }
  }

  const ActiveClass: string := "text-red-800"
  const InactiveClass: string := "text-zinc-500"

  /** The link's colour: red exactly on its own page, grey everywhere else. */
  function LinkClass(href: string, currentPath: string): (c: string)
    ensures c == ActiveClass <==> href == currentPath
    ensures c == InactiveClass <==> href != currentPath
  {
    if href == currentPath then ActiveClass else InactiveClass
  }
}
