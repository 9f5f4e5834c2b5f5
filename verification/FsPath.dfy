/** Path names as strings: splitting at the slashes and putting the names together again. */
module FsPath {
  import opened FsDisk

  predicate Plain(name: string) { '/' !in name }

  ghost predicate AllPlain(ps: Path) { forall i {:trigger ps[i]} :: 0 <= i < |ps| ==> Plain(ps[i]) }

  /** The pieces of a string between its slashes. */
  function Split(s: string): (r: seq<string>)
    ensures r != []
  {
    if s == "" then [""]
    else if s[0] == '/' then [""] + Split(s[1..])
    else var r := Split(s[1..]); [[s[0]] + r[0]] + r[1..]
  }

  /** A path's names; what stands before the first slash is dropped. */
  function Components(s: string): Path { Split(s)[1..] }

  function Join(ps: Path): string { if ps == [] then "" else "/" + ps[0] + Join(ps[1..]) }

  /** The root is written as a slash. */
  function PathString(p: Path): string { if p == [] then "/" else Join(p) }

  lemma {:induction false} SplitPlain(s: string)
    requires Plain(s)
    ensures Split(s) == [s]
  {
    if s != "" {
      assert s[0] in s && s[0] != '/';
      assert forall c :: c in s[1..] ==> c in s;
      SplitPlain(s[1..]);
      assert [s[0]] + s[1..] == s;
    }
  }

  /** The first piece ends at the first slash. */
  lemma {:induction false} SplitAtSlash(s: string, k: nat)
    requires k < |s| && s[k] == '/' && Plain(s[..k])
    ensures Split(s) == [s[..k]] + Split(s[k + 1..])
  {
    if k > 0 {
      assert s[0] == s[..k][0] && s[0] in s[..k] && s[0] != '/';
      assert s[1..][..k - 1] == s[..k][1..] && s[1..][k - 1 + 1..] == s[k + 1..];
      assert forall c :: c in s[..k][1..] ==> c in s[..k];
      SplitAtSlash(s[1..], k - 1);
      assert [s[0]] + s[1..][..k - 1] == s[..k];
    }
  }

  lemma {:induction false} SplitAllPlain(s: string)
    ensures AllPlain(Split(s))
  {
    if s != "" {
      SplitAllPlain(s[1..]);
      var r := Split(s[1..]);
      assert Plain(r[0]);
      if s[0] == '/' {
        forall i | 0 <= i < |Split(s)| ensures Plain(Split(s)[i]) { if i > 0 { assert Split(s)[i] == r[i - 1]; } }
      } else {
        forall i | 0 <= i < |Split(s)| ensures Plain(Split(s)[i]) { if i > 0 { assert Split(s)[i] == r[i]; } }
      }
    }
  }

  lemma Glue(a: string, b: string, c: string)
    ensures a + (b + c) == (a + b) + c
  {}

  lemma {:induction false} JoinSplit(s: string)
    ensures Join(Split(s)) == "/" + s
  {
    if s != "" {
      JoinSplit(s[1..]);
      var r := Split(s[1..]);
      assert [s[0]] + s[1..] == s;
      if s[0] == '/' { assert ([""] + r)[1..] == r; } else { JoinLonger(s[0], r, s[1..]); }
    }
  }

  /** One more character in front of the first piece. */
  lemma JoinLonger(c: char, r: seq<string>, t: string)
    requires r != [] && Join(r) == "/" + t
    ensures Join([[c] + r[0]] + r[1..]) == "/" + ([c] + t)
  {
    var rest := Join(r[1..]);
    Glue("/", r[0], rest);
    assert r[0] + rest == t by { assert ("/" + (r[0] + rest))[1..] == r[0] + rest && ("/" + t)[1..] == t; }
    assert ([[c] + r[0]] + r[1..])[1..] == r[1..];
    Glue([c], r[0], rest);
    Glue("/", [c] + r[0], rest);
  }

  /** Parsing an absolute path loses nothing. */
  lemma JoinComponents(s: string)
    requires s != "" && s[0] == '/'
    ensures Join(Components(s)) == s && Components(s) != []
  {
    JoinSplit(s[1..]);
    assert Components(s) == Split(s[1..]) && s == "/" + s[1..];
  }

  /** Names without slashes come back from the path they make. */
  lemma {:induction false} ComponentsJoin(ps: Path)
    requires ps != [] && AllPlain(ps)
    ensures Components(Join(ps)) == ps
  {
    var s := Join(ps);
    assert Plain(ps[0]) && s[1..] == ps[0] + Join(ps[1..]);
    if |ps| == 1 {
      assert Join(ps[1..]) == "" && s[1..] == ps[0];
      SplitPlain(ps[0]);
    } else {
      assert forall i {:trigger ps[1..][i]} :: 0 <= i < |ps[1..]| ==> Plain(ps[i + 1]) && ps[1..][i] == ps[i + 1];
      ComponentsJoin(ps[1..]);
      var t := s[1..];
      assert t[..|ps[0]|] == ps[0] && t[|ps[0]|..] == Join(ps[1..]) && t[|ps[0]|] == '/';
      SplitAtSlash(t, |ps[0]|);
      assert t[|ps[0]| + 1..] == Join(ps[1..])[1..];
    }
  }

  lemma {:induction false} JoinAppend(ps: Path, qs: Path)
    ensures Join(ps + qs) == Join(ps) + Join(qs)
  {
    if ps == [] { assert ps + qs == qs; } else {
      assert (ps + qs)[0] == ps[0] && (ps + qs)[1..] == ps[1..] + qs;
      JoinAppend(ps[1..], qs);
      assert "/" + ps[0] + (Join(ps[1..]) + Join(qs)) == ("/" + ps[0] + Join(ps[1..])) + Join(qs);
    }
  }

  lemma JoinOne(n: string)
    ensures Join([n]) == "/" + n
  {
    assert Join([n]) == "/" + n + Join([n][1..]);
  }

  lemma JoinLength(p: Path)
    requires p != [] && forall n :: n in p ==> n != ""
    ensures |Join(p)| > 1
  {
    assert p[0] in p;
  }

  /** Different paths are different keys. */
  lemma PathStringInjective(p: Path, q: Path)
    requires AllPlain(p) && AllPlain(q) && PathString(p) == PathString(q)
    requires (forall n :: n in p ==> n != "") && (forall n :: n in q ==> n != "")
    ensures p == q
  {
    if p != [] { JoinLength(p); }
    if q != [] { JoinLength(q); }
    if p != [] && q != [] {
      ComponentsJoin(p);
      ComponentsJoin(q);
    }
  }

  // ----- the loops -----

  /** std::string::find: the next slash, or -1. */
  method FindSlash(s: string, from: nat) returns (at: int)
    requires from <= |s|
    ensures at == -1 ==> Plain(s[from..])
    ensures at != -1 ==> from <= at < |s| && s[at] == '/' && Plain(s[from..at])
  {
    at := from;
    while at < |s|
      invariant from <= at <= |s| && Plain(s[from..at])
    {
      if s[at] == '/' { return at; }
      at := at + 1;
    }
    assert s[from..at] == s[from..];
    at := -1;
  }

  lemma SplitStep(s: string, last: nat, next: nat, parts: Path)
    requires last <= next < |s| && s[next] == '/' && Plain(s[last..next])
    ensures parts + Split(s[last..]) == (parts + [s[last..next]]) + Split(s[next + 1..])
  {
    var rest := s[last..];
    assert rest[next - last] == '/' && rest[..next - last] == s[last..next] && rest[next - last + 1..] == s[next + 1..];
    SplitAtSlash(rest, next - last);
  }

  /** parse_path. */
  method ParsePath(pathname: string) returns (parts: Path)
    requires '/' in pathname
    ensures parts == Components(pathname)
  {
    parts := [];
    var last := 0;
    var next := FindSlash(pathname, last);
    while next != -1
      invariant last <= |pathname| && -1 <= next
      invariant next == -1 ==> Plain(pathname[last..])
      invariant next != -1 ==> last <= next < |pathname| && pathname[next] == '/' && Plain(pathname[last..next])
      invariant Split(pathname) == parts + Split(pathname[last..])
      decreases |pathname| - last
    {
      SplitStep(pathname, last, next, parts);
      parts := parts + [pathname[last..next]];
      last := next + 1;
      next := FindSlash(pathname, last);
    }
    SplitPlain(pathname[last..]);
    parts := parts + [pathname[last..]];
    assert parts == Split(pathname);
    parts := parts[1..];
  }

  /** What check_valid_pathname accepts. */
  predicate ValidPath(s: string) {
    && 0 < |s| <= FS_MAXPATHNAME && s[0] == '/' && s[|s| - 1] != '/' && ' ' !in s && '\0' !in s
    && forall i {:trigger Components(s)[i]} :: 0 <= i < |Components(s)| ==> 0 < |Components(s)[i]| <= FS_MAXFILENAME
  }

  /** A valid path names at least one thing, and its names are usable as directory entries. */
  lemma ValidComponents(s: string)
    requires ValidPath(s)
    ensures Components(s) != [] && AllPlain(Components(s)) && PathString(Components(s)) == s
    ensures forall n :: n in Components(s) ==> n != ""
  {
    JoinComponents(s);
    SplitAllPlain(s);
    forall i | 0 <= i < |Components(s)| ensures Plain(Components(s)[i]) { assert Components(s)[i] == Split(s)[i + 1]; }
  }

  /** Names that can stand in a path: not empty, not too long, without a slash, a space or a NUL; and the path is not
      too long. */
  ghost predicate Nameable(ps: Path) {
    && ps != [] && |Join(ps)| <= 128
    && forall n {:trigger n in ps} :: n in ps ==> 1 <= |n| <= 59 && '/' !in n && ' ' !in n && '\0' !in n
  }

  ghost predicate InNames(ps: Path, c: char) { exists n {:trigger n in ps} :: n in ps && c in n }

  /** A path has the characters of its names, and slashes. */
  lemma {:induction false} JoinChars(ps: Path, c: char)
    ensures c in Join(ps) <==> (ps != [] && c == '/') || InNames(ps, c)
  {
    if ps != [] {
      JoinChars(ps[1..], c);
      var rest := Join(ps[1..]);
      assert Join(ps) == "/" + ps[0] + rest;
      assert c in Join(ps) <==> c == '/' || c in ps[0] || c in rest;
      assert InNames(ps, c) <==> c in ps[0] || InNames(ps[1..], c) by {
        assert ps[0] in ps;
        forall n ensures n in ps <==> n == ps[0] || n in ps[1..] {}
      }
    }
  }

  lemma JoinEnds(ps: Path)
    requires ps != [] && ps[|ps| - 1] != ""
    ensures Join(ps) != "" && Join(ps)[0] == '/' && Join(ps)[|Join(ps)| - 1] == Last(ps)[|Last(ps)| - 1]
  {
    JoinAppend(Parent(ps), [Last(ps)]);
    JoinOne(Last(ps));
    assert Parent(ps) + [Last(ps)] == ps;
  }

  lemma NameableValid(ps: Path)
    requires Nameable(ps)
    ensures ValidPath(Join(ps))
  {
    forall i | 0 <= i < |ps| ensures Plain(ps[i]) && 0 < |ps[i]| <= 59 { assert ps[i] in ps; }
    ComponentsJoin(ps);
    JoinEnds(ps);
    JoinChars(ps, ' ');
    JoinChars(ps, '\0');
    assert Last(ps) in ps && Last(ps)[|Last(ps)| - 1] in Last(ps);
  }

  lemma ValidNameable(s: string)
    requires ValidPath(s)
    ensures Nameable(Components(s)) && Join(Components(s)) == s
  {
    var ps := Components(s);
    ValidComponents(s);
    JoinComponents(s);
    forall n | n in ps ensures 1 <= |n| <= 59 && '/' !in n && ' ' !in n && '\0' !in n {
      var i :| 0 <= i < |ps| && ps[i] == n;
      assert Plain(ps[i]) && 0 < |ps[i]| <= FS_MAXFILENAME;
      JoinChars(ps, ' ');
      JoinChars(ps, '\0');
    }
  }

  /** The accepted paths are exactly those that such names make. */
  lemma ValidExactly(s: string)
    ensures ValidPath(s) <==> exists ps {:trigger Join(ps)} :: Nameable(ps) && Join(ps) == s
  {
    if ValidPath(s) { ValidNameable(s); }
    forall ps | Nameable(ps) && Join(ps) == s ensures ValidPath(s) { NameableValid(ps); }
  }

  method CheckValidPathname(s: string) returns (ok: bool)
    ensures ok == ValidPath(s)
    ensures ok <==> exists ps {:trigger Join(ps)} :: Nameable(ps) && Join(ps) == s
  {
    ValidExactly(s);
    if |s| == 0 || |s| > FS_MAXPATHNAME || s[0] != '/' || s[|s| - 1] == '/' || ' ' in s || '\0' in s { return false; }
    var parts := ParsePath(s);
    var i := 0;
    while i < |parts|
      invariant 0 <= i <= |parts|
      invariant forall k {:trigger parts[k]} :: 0 <= k < i ==> 0 < |parts[k]| <= FS_MAXFILENAME
    {
      if |parts[i]| > FS_MAXFILENAME || |parts[i]| == 0 { return false; }
      i := i + 1;
    }
    ok := true;
  }

  /** create puts the parent's path together again; with the last name it is the path it was given. */
  method ParentPath(pathname: string) returns (parent: string, name: string)
    requires '/' in pathname && pathname[0] == '/'
    ensures Components(pathname) != [] && parent == PathString(Parent(Components(pathname)))
    ensures name == Last(Components(pathname))
    ensures (if |Components(pathname)| == 1 then "" else parent) + ("/" + name) == pathname
  {
    JoinComponents(pathname);
    var parts := ParsePath(pathname);
    ghost var all := parts;
    name := parts[|parts| - 1];
    parts := parts[..|parts| - 1];
    parent := "";
    var i := 0;
    while i < |parts|
      invariant 0 <= i <= |parts| && parent == Join(parts[..i])
    {
      assert parts[..i + 1] == parts[..i] + [parts[i]];
      JoinAppend(parts[..i], [parts[i]]);
      JoinOne(parts[i]);
      parent := parent + "/";
      parent := parent + parts[i];
      i := i + 1;
    }
    assert parts[..i] == parts && parts == Parent(all) && all == parts + [name];
    PathAndName(parts, name);
    if |parts| == 0 { parent := parent + "/"; }
  }

  lemma PathAndName(p: Path, name: string)
    ensures Join(p + [name]) == Join(p) + ("/" + name)
  {
    JoinAppend(p, [name]);
    JoinOne(name);
  }
}
