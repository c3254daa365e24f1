/**
 * Normalisation of a GitHub repository spec (`parseRepo` in scripts/railway-setup.mjs).
 * A spec is either a bare repository name, owned by the configured owner, or an
 * explicit "owner/repo" string.
 */
module Repo {
  import opened Wrappers

  datatype RepoRef = RepoRef(owner: string, repo: string)

  /** "owner/repo", the form sent to the platform as the GitHub source. */
  function FullName(r: RepoRef): string {
    r.owner + "/" + r.repo
  }

  /** Index of the first '/' of s, or |s| when s has none. */
  function SlashIndex(s: string): (i: nat)
    ensures i <= |s|
    ensures i < |s| ==> s[i] == '/'
    ensures forall j :: 0 <= j < i ==> s[j] != '/'
  {
    if s == [] || s[0] == '/' then 0 else 1 + SlashIndex(s[1..])
  }

  /** The segment of s before its first '/' (all of s when it has none). */
  function FirstSegment(s: string): (seg: string)
    ensures seg <= s && '/' !in seg
    ensures seg == s || s[|seg|] == '/'
  {
    s[..SlashIndex(s)]
  }

  /**
   * `repo.split('/')` destructured into its first two segments when the spec holds a
   * '/'; otherwise the configured owner with the spec unchanged. The model reads the
   * owner parameter as the GITHUB_OWNER setting itself, so an empty owner is the case
   * where the script's required fallback lookup of that setting fails (None).
   */
  function ParseRepo(spec: string, owner: string): (r: Option<RepoRef>)
    ensures '/' in spec ==>
      && r.Some?
      && '/' !in r.value.owner && '/' !in r.value.repo
      && FullName(r.value) <= spec
      && (FullName(r.value) == spec || spec[|FullName(r.value)|] == '/')
    ensures '/' !in spec && owner != "" ==> r == Some(RepoRef(owner, spec))
    ensures '/' !in spec && owner == "" ==> r == None
  {
    if '/' in spec then
      var o := FirstSegment(spec);
      var rest := spec[|o| + 1..];
      var rp := FirstSegment(rest);
      assert spec == o + "/" + rest;
      assert FullName(RepoRef(o, rp)) == spec[..|o| + 1 + |rp|];
      Some(RepoRef(o, rp))
    else if owner != "" then Some(RepoRef(owner, spec))
    else None
  }

  /** The first '/' of `a + "/" + b` is the one after a, when a holds none. */
  lemma {:induction false} SlashIndexAfter(a: string, b: string)
    requires '/' !in a
    ensures SlashIndex(a + "/" + b) == |a|
  {
    if a != [] {
      assert (a + "/" + b)[1..] == a[1..] + "/" + b;
      SlashIndexAfter(a[1..], b);
    }
  }

  /** The first segment of `a + tail` is a when a holds no '/' and tail is empty or starts with '/'. */
  lemma {:induction false} FirstSegmentOf(a: string, tail: string)
    requires '/' !in a
    requires tail == [] || tail[0] == '/'
    ensures FirstSegment(a + tail) == a
  {
    if tail == [] {
      assert a + tail == a;
    } else {
      SlashIndexAfter(a, tail[1..]);
      assert a + tail == a + "/" + tail[1..];
    }
  }

  /** A spec holding a '/' parses to its first segment and the segment after that. */
  lemma {:induction false} ParseSplitSpec(spec: string, owner: string)
    requires '/' in spec
    ensures var o := FirstSegment(spec);
      |o| < |spec| && ParseRepo(spec, owner) == Some(RepoRef(o, FirstSegment(spec[|o| + 1..])))
  {
  }

  /**
   * The split reading is the only one: whenever a spec is an owner, a '/', a repo and
   * a tail that is empty or starts with '/', with no '/' in owner or repo, the spec
   * parses to exactly that owner and repo whatever the configured owner is.
   */
  lemma {:induction false} ParseRepoSplit(o: string, rp: string, tail: string, owner: string)
    requires '/' !in o && '/' !in rp
    requires tail == [] || tail[0] == '/'
    ensures ParseRepo(o + "/" + rp + tail, owner) == Some(RepoRef(o, rp))
  {
    var spec := o + "/" + rp + tail;
    SplitAt(o, rp, tail);
    FirstSegmentOf(o, "/" + (rp + tail));
    FirstSegmentOf(rp, tail);
    ParseSplitSpec(spec, owner);
  }

  /** Where the '/' after o sits in `o + "/" + rp + tail`, and what follows it. */
  lemma {:induction false} SplitAt(o: string, rp: string, tail: string)
    ensures var spec := o + "/" + rp + tail;
      && spec == o + ("/" + (rp + tail))
      && spec[|o|] == '/'
      && spec[|o| + 1..] == rp + tail
  {
    var spec := o + "/" + rp + tail;
    assert spec == o + ("/" + (rp + tail));
    assert spec[|o| + 1..] == rp + tail;
  }

  /** Parsing the full name of a reference gives the reference back. */
  lemma {:induction false} ParseFullName(r: RepoRef, owner: string)
    requires '/' !in r.owner && '/' !in r.repo
    ensures ParseRepo(FullName(r), owner) == Some(r)
  {
    ParseRepoSplit(r.owner, r.repo, "", owner);
    assert FullName(r) + "" == FullName(r);
  }

  /** A bare name gets the configured owner. */
  lemma {:induction false} ParseBareName()
    ensures ParseRepo("myrepo", "myorg") == Some(RepoRef("myorg", "myrepo"))
  {
    var spec := "myrepo";
    assert forall i :: 0 <= i < |spec| ==> spec[i] != '/';
  }

  /** An explicit owner wins over the configured one. */
  lemma {:induction false} ParseExplicitOwner()
    ensures ParseRepo("otherorg" + "/" + "myrepo", "myorg") == Some(RepoRef("otherorg", "myrepo"))
  {
    ParseRepoSplit("otherorg", "myrepo", "", "myorg");
    assert "otherorg" + "/" + "myrepo" + "" == "otherorg" + "/" + "myrepo";
  }

  /** Segments after the second are dropped. */
  lemma {:induction false} ParseDropsExtraSegments()
    ensures ParseRepo("a/b/c", "myorg") == Some(RepoRef("a", "b"))
  {
    var o, rp, tail := "a", "b", "/c";
    ParseRepoSplit(o, rp, tail, "myorg");
    assert o + "/" + rp + tail == "a/b/c";
  }
}
