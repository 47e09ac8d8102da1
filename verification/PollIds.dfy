/** The identifiers the poller gives its events, and when two of them are the same. */
module PollIds {
  import opened Wrappers
  import opened EventQueue

  const PREFIX := "poll:"
  const HOST := "github.com/"

  function WithoutHost(s: string): string { if HOST <= s then s[|HOST|..] else s }

  /** Every slash becomes an underscore. */
  function Flat(s: string): (r: string)
    ensures |r| == |s|
  {
    if s == "" then "" else [if s[0] == '/' then '_' else s[0]] + Flat(s[1..])
  }

  function Part(s: string): string { Flat(WithoutHost(s)) }

  function ReasonText(r: Reason): string {
    match r
    case DefaultBranchUpdated => "default_branch_updated"
    case RepositoryRenamed => "repository_renamed"
  }

  function EventId(repository: Name, reason: Reason, target: Name): Name {
    Name(PREFIX + (Part(repository.text) + (":" + (ReasonText(reason) + (":" + Part(target.text))))))
  }

  /** The event for a repository's default branch arriving at a commit. */
  function HeadId(repository: Name, sha: Name): Name { EventId(repository, DefaultBranchUpdated, sha) }

  predicate IsPollId(id: Name) { PREFIX <= id.text }

  lemma PollIdsArePrefixed(repository: Name, reason: Reason, target: Name)
    ensures IsPollId(EventId(repository, reason, target)) && EventId(repository, reason, target) != BLANK
  {
    assert EventId(repository, reason, target).text[0] == 'p';
  }

  // ----- When two of them are the same -----

  predicate Lacks(s: string, c: char) { forall i | 0 <= i < |s| :: s[i] != c }

  /** Owner and name, neither empty, with none of the characters the identifier is built with. */
  predicate WellFormed(owner: string, name: string) {
    owner != "" && name != "" && Lacks(owner, '/') && Lacks(name, '/') && Lacks(owner, ':') && Lacks(name, ':')
  }

  function Canonical(owner: string, name: string): Name { Name(HOST + (owner + ("/" + name))) }

  lemma {:induction false} FlatAppends(a: string, b: string)
    ensures Flat(a + b) == Flat(a) + Flat(b)
  {
    if a == "" {
      assert a + b == b;
    } else {
      FlatAppends(a[1..], b);
      assert (a + b)[1..] == a[1..] + b;
    }
  }

  lemma {:induction false} FlatLeaves(s: string)
    requires Lacks(s, '/')
    ensures Flat(s) == s
  {
    if s != "" {
      FlatLeaves(s[1..]);
      assert s == [s[0]] + s[1..];
    }
  }

  lemma PartOfCanonical(owner: string, name: string)
    requires WellFormed(owner, name)
    ensures Part(Canonical(owner, name).text) == owner + ("_" + name)
  {
    assert WithoutHost(Canonical(owner, name).text) == owner + ("/" + name);
    FlatAppends(owner, "/" + name);
    FlatAppends("/", name);
    FlatLeaves(owner);
    FlatLeaves(name);
    assert Flat("/") == "_";
  }

  lemma SeparatorInside(a: string, x: string, b: string, y: string, c: char)
    requires |a| < |b| && a + ([c] + x) == b + ([c] + y)
    ensures b[|a|] == c
  {
    assert (a + ([c] + x))[|a|] == c && (b + ([c] + y))[|a|] == b[|a|];
  }

  /** Text that ends at the first separator is determined by the whole. */
  lemma SplitsOnce(a: string, x: string, b: string, y: string, c: char)
    requires Lacks(a, c) && Lacks(b, c) && a + ([c] + x) == b + ([c] + y)
    ensures a == b && x == y
  {
    var s := a + ([c] + x);
    if |a| < |b| {
      SeparatorInside(a, x, b, y, c);
    } else if |b| < |a| {
      SeparatorInside(b, y, a, x, c);
    }
    assert a == s[..|a|] && b == s[..|b|] && x == s[|a| + 1..] && y == s[|b| + 1..];
  }

  /**
   Flattening keeps two repositories apart unless the longer owner goes on, past an underscore, with
   what the other repository's name begins with.
   */
  lemma FlattenedAgree(o1: string, n1: string, o2: string, n2: string)
    ensures o1 + ("_" + n1) == o2 + ("_" + n2) <==>
              || (o1 == o2 && n1 == n2)
              || (|o2| < |o1| && o1 == o2 + ("_" + o1[|o2| + 1..]) && n2 == o1[|o2| + 1..] + ("_" + n1))
              || (|o1| < |o2| && o2 == o1 + ("_" + o2[|o1| + 1..]) && n1 == o2[|o1| + 1..] + ("_" + n2))
  {
    if |o2| < |o1| {
      LongerOwner(o1, n1, o2, n2);
    } else if |o1| < |o2| {
      LongerOwner(o2, n2, o1, n1);
    } else if o1 + ("_" + n1) == o2 + ("_" + n2) {
      assert o1 == (o1 + ("_" + n1))[..|o1|] && o2 == (o2 + ("_" + n2))[..|o2|];
      assert n1 == (o1 + ("_" + n1))[|o1| + 1..] && n2 == (o2 + ("_" + n2))[|o2| + 1..];
    }
  }

  lemma LongerOwner(o1: string, n1: string, o2: string, n2: string)
    requires |o2| < |o1|
    ensures o1 + ("_" + n1) == o2 + ("_" + n2) <==>
              o1 == o2 + ("_" + o1[|o2| + 1..]) && n2 == o1[|o2| + 1..] + ("_" + n1)
  {
    var s, t, rest := o1 + ("_" + n1), o2 + ("_" + n2), o1[|o2| + 1..];
    if o1 == o2 + ("_" + rest) {
      assert o2 + ("_" + (rest + ("_" + n1))) == s;
    }
    if s == t {
      assert o1 == s[..|o1|] && o2 == t[..|o2|];
      assert s[|o2|] == o1[|o2|] && t[|o2|] == '_';
      assert o1 == o1[..|o2|] + ([o1[|o2|]] + rest);
      assert n2 == t[|o2| + 1..];
      assert rest + ("_" + n1) == s[|o2| + 1..];
    }
  }

  lemma PartsAgree(prefix: string, p1: string, p2: string, reason: string, s1: string, s2: string)
    requires Lacks(p1, ':') && Lacks(p2, ':')
    ensures prefix + (p1 + (":" + (reason + (":" + s1)))) == prefix + (p2 + (":" + (reason + (":" + s2))))
        <==> p1 == p2 && s1 == s2
  {
    var r1, r2 := reason + (":" + s1), reason + (":" + s2);
    var t1, t2 := prefix + (p1 + (":" + r1)), prefix + (p2 + (":" + r2));
    if t1 == t2 {
      assert t1[|prefix|..] == p1 + (":" + r1) && t2[|prefix|..] == p2 + (":" + r2);
      SplitsOnce(p1, r1, p2, r2, ':');
      assert r1[|reason| + 1..] == s1 && r2[|reason| + 1..] == s2;
    }
  }

  predicate IsCommit(sha: Name) { Lacks(sha.text, '/') && !(HOST <= sha.text) }

  /** What the identifier of a head, and that of a renamed repository, look like. */
  lemma IdsAreSpelled(owner: string, name: string, sha: Name)
    requires WellFormed(owner, name) && IsCommit(sha)
    ensures HeadId(Canonical(owner, name), sha).text
        == "poll:" + (owner + ("_" + name) + (":" + ("default_branch_updated" + (":" + sha.text))))
    ensures EventId(Canonical(owner, name), RepositoryRenamed, Canonical(owner, name)).text
        == "poll:" + (owner + ("_" + name) + (":" + ("repository_renamed" + (":" + (owner + ("_" + name))))))
  {
    PartOfCanonical(owner, name);
    FlatLeaves(sha.text);
  }

  /** The identifiers of two heads agree exactly when the flattened repositories and the commits do. */
  lemma HeadIdsAgree(o1: string, n1: string, sha1: Name, o2: string, n2: string, sha2: Name)
    requires WellFormed(o1, n1) && WellFormed(o2, n2)
    ensures HeadId(Canonical(o1, n1), sha1) == HeadId(Canonical(o2, n2), sha2) <==>
              o1 + ("_" + n1) == o2 + ("_" + n2) && Part(sha1.text) == Part(sha2.text)
  {
    PartOfCanonical(o1, n1);
    PartOfCanonical(o2, n2);
    PartsAgree(PREFIX, o1 + ("_" + n1), o2 + ("_" + n2), ReasonText(DefaultBranchUpdated), Part(sha1.text),
        Part(sha2.text));
  }

  /** Between owners without an underscore, different heads have different identifiers. */
  lemma PlainOwnersAreApart(o1: string, n1: string, sha1: Name, o2: string, n2: string, sha2: Name)
    requires WellFormed(o1, n1) && WellFormed(o2, n2) && Lacks(o1, '_') && Lacks(o2, '_')
    requires IsCommit(sha1) && IsCommit(sha2) && HeadId(Canonical(o1, n1), sha1) == HeadId(Canonical(o2, n2), sha2)
    ensures o1 == o2 && n1 == n2 && sha1 == sha2
  {
    HeadIdsAgree(o1, n1, sha1, o2, n2, sha2);
    SplitsOnce(o1, n1, o2, n2, '_');
    FlatLeaves(sha1.text);
    FlatLeaves(sha2.text);
  }

  lemma Regrouped(left: string, right: string, name: string)
    ensures (left + ("_" + right)) + ("_" + name) == left + ("_" + (right + ("_" + name)))
    ensures |left + ("_" + right)| > |left|
  {
  }

  lemma SamePartSameId(a: Name, b: Name, sha: Name)
    requires Part(a.text) == Part(b.text)
    ensures HeadId(a, sha) == HeadId(b, sha)
  {
  }

  lemma CanonicalIsInjective(o1: string, n1: string, o2: string, n2: string)
    requires WellFormed(o1, n1) && WellFormed(o2, n2)
    ensures Canonical(o1, n1) == Canonical(o2, n2) ==> o1 == o2 && n1 == n2
  {
    if Canonical(o1, n1) != Canonical(o2, n2) { return; }
    assert Canonical(o1, n1).text[|HOST|..] == o1 + ("/" + n1) && Canonical(o2, n2).text[|HOST|..] == o2 + ("/" + n2);
    SplitsOnce(o1, n1, o2, n2, '/');
  }

  /** An owner with an underscore inside shares its identifiers with another owner's repository. */
  lemma UnderscoredOwnersCollide(owner: string, left: string, right: string, name: string, longer: string, sha: Name)
    requires owner == left + ("_" + right) && longer == right + ("_" + name)
    requires WellFormed(owner, name) && WellFormed(left, longer)
    ensures Canonical(owner, name) != Canonical(left, longer)
    ensures HeadId(Canonical(owner, name), sha) == HeadId(Canonical(left, longer), sha)
  {
    CanonicalIsInjective(owner, name, left, longer);
    Regrouped(left, right, name);
    PartOfCanonical(owner, name);
    PartOfCanonical(left, longer);
    SamePartSameId(Canonical(owner, name), Canonical(left, longer), sha);
  }
}
