/** fs_utils: making paths relative to a directory, and absolute again. */
module Paths {

  // ---- Splitting and joining at slashes, as boost does ----

  function Split(s: string): (es: seq<string>)
    ensures |es| >= 1
  {
    if s == "" then [""] else
      var rest := Split(s[1..]);
      if s[0] == '/' then [""] + rest else [[s[0]] + rest[0]] + rest[1..]
  }

  function Join(es: seq<string>): string {
    if |es| == 0 then "" else if |es| == 1 then es[0] else es[0] + "/" + Join(es[1..])
  }

  lemma {:induction false} SplitAtSlash(a: string, b: string)
    ensures Split(a + "/" + b) == Split(a) + Split(b)
  {
    var s := a + "/" + b;
    if a == "" {
      assert s[1..] == b;
    } else {
      assert s[1..] == a[1..] + "/" + b && s[0] == a[0];
      SplitAtSlash(a[1..], b);
    }
  }

  lemma {:induction false} JoinSplit(s: string)
    ensures Join(Split(s)) == s
  {
    if s != "" {
      JoinSplit(s[1..]);
      var rest := Split(s[1..]);
      var es := Split(s);
      if s[0] == '/' {
        assert es[1..] == rest;
      } else if |rest| > 1 {
        assert es[1..] == rest[1..];
        assert Join(es) == [s[0]] + rest[0] + "/" + Join(rest[1..]);
      }
      assert s == [s[0]] + s[1..];
    }
  }

  predicate SlashFree(s: string) { '/' !in s }

  ghost predicate AllSlashFree(es: seq<string>) {
    forall i :: 0 <= i < |es| ==> SlashFree(es[i])
  }

  lemma {:induction false} SplitSlashFree(s: string)
    ensures AllSlashFree(Split(s))
  {
    if s != "" { SplitSlashFree(s[1..]); }
  }

  lemma {:induction false} SplitOne(s: string)
    requires SlashFree(s)
    ensures Split(s) == [s]
  {
    if s != "" {
      SplitOne(s[1..]);
      assert s == [s[0]] + s[1..];
    }
  }

  lemma {:induction false} SplitJoin(es: seq<string>)
    requires |es| > 0 && AllSlashFree(es)
    ensures Split(Join(es)) == es
  {
    SplitOne(es[0]);
    if |es| > 1 {
      SplitJoin(es[1..]);
      SplitAtSlash(es[0], Join(es[1..]));
    }
  }

  // ---- Protocols ----

  predicate EndsWith(s: string, t: string) {
    |t| <= |s| && s[|s| - |t|..] == t
  }

  predicate ColonSlashSlashAt(s: string, i: int) {
    0 <= i <= |s| - 3 && s[i] == ':' && s[i + 1] == '/' && s[i + 2] == '/'
  }

  /** The first "://", or -1. */
  function FindProtocol(s: string): (p: int)
    ensures p == -1 || ColonSlashSlashAt(s, p)
    ensures forall i :: ColonSlashSlashAt(s, i) ==> 0 <= p <= i
  {
    if |s| < 3 then -1
    else if ColonSlashSlashAt(s, 0) then 0
    else
      var p := FindProtocol(s[1..]);
      assert forall i :: 0 < i && ColonSlashSlashAt(s, i) ==> ColonSlashSlashAt(s[1..], i - 1);
      if p < 0 then -1 else p + 1
  }

  function ToLower(s: string): string {
    seq(|s|, i requires 0 <= i < |s| => if 'A' <= s[i] <= 'Z' then s[i] - 'A' + 'a' else s[i])
  }

  function GetProtocol(path: string): string {
    var p := FindProtocol(path);
    if p >= 0 then ToLower(path[..p]) else ""
  }

  function RemoveProtocol(path: string): string {
    var p := FindProtocol(path);
    if p >= 0 then path[p + 3..] else path
  }

  // ---- Relative and absolute paths ----

  function RootElements(root: string): seq<string> {
    var r := if RemoveProtocol(root) == "" then "/" else RemoveProtocol(root);
    var es := Split(r);
    if EndsWith(r, "/") then es[..|es| - 1] else es
  }

  function PathElements(path: string): seq<string> {
    var p := RemoveProtocol(path);
    if p == "" then [] else Split(p)
  }

  /** How many elements two paths share from the start. */
  function Shared(a: seq<string>, b: seq<string>): (k: nat)
    ensures k <= |a| && k <= |b| && a[..k] == b[..k]
    ensures k == |a| || k == |b| || a[k] != b[k]
  {
    if a == [] || b == [] || a[0] != b[0] then 0 else
      var k := Shared(a[1..], b[1..]);
      assert a[..k + 1] == [a[0]] + a[1..][..k] && b[..k + 1] == [b[0]] + b[1..][..k];
      k + 1
  }

  function Ups(n: nat): seq<string> { seq(n, _ => "..") }

  /** Up out of what the root has more, then down the rest of the path. */
  function RelativeElements(root: string, path: string): seq<string> {
    var k := Shared(RootElements(root), PathElements(path));
    Ups(|RootElements(root)| - k) + PathElements(path)[k..]
  }

  function RelativePath(root: string, path: string): string {
    if GetProtocol(root) != GetProtocol(path) || Shared(RootElements(root), PathElements(path)) == 0 then path
    else Join(RelativeElements(root, path))
  }

  method CountMatches(rootElements: seq<string>, pathElements: seq<string>) returns (matches: nat)
    ensures matches == Shared(rootElements, pathElements)
  {
    matches := 0;
    var minElements := if |rootElements| < |pathElements| then |rootElements| else |pathElements|;
    for i := 0 to minElements
      invariant matches == i && forall j :: 0 <= j < i ==> rootElements[j] == pathElements[j]
    {
      if pathElements[i] == rootElements[i] { matches := i + 1; } else { break; }
    }
    SharedIs(rootElements, pathElements, matches);
  }

  method MakeRelativePath(rootDirectory: string, path: string) returns (r: string)
    ensures r == RelativePath(rootDirectory, path)
  {
    hide Split, GetProtocol, RemoveProtocol, Shared, Join;
    if GetProtocol(rootDirectory) != GetProtocol(path) { return path; }
    var root, p := RemoveProtocol(rootDirectory), RemoveProtocol(path);
    if root == "" { root := "/"; }
    var rootElements := Split(root);
    if EndsWith(root, "/") && |rootElements| > 0 { rootElements := rootElements[..|rootElements| - 1]; }
    var pathElements := if p == "" then [] else Split(p);
    var matches := CountMatches(rootElements, pathElements);
    if matches == 0 { return path; }
    var es: seq<string> := [];
    for i := matches to |rootElements|
      invariant es == Ups(i - matches)
    {
      es := es + [".."];
    }
    es := es + pathElements[matches..];
    r := Join(es);
  }

  lemma SharedIs(a: seq<string>, b: seq<string>, k: nat)
    requires k <= |a| && k <= |b| && forall j :: 0 <= j < k ==> a[j] == b[j]
    requires k == |a| || k == |b| || a[k] != b[k]
    ensures Shared(a, b) == k
  {
    SharedAgree(a, b, Shared(a, b));
    hide Shared;
  }

  lemma SharedAgree(a: seq<string>, b: seq<string>, k: nat)
    requires k <= |a| && k <= |b| && a[..k] == b[..k]
    ensures forall j :: 0 <= j < k ==> a[j] == b[j]
  {
    forall j | 0 <= j < k ensures a[j] == b[j] {
      assert a[j] == a[..k][j] && b[j] == b[..k][j];
    }
  }

  /** The directory without its closing slash, unless that belongs to a bare protocol. */
  function Directory(root: string): string {
    if !EndsWith(root, "://") && EndsWith(root, "/") then root[..|root| - 1] else root
  }

  function AbsolutePath(root: string, path: string): string {
    if path == "" || FindProtocol(path) >= 0 || path[0] == '/' then path else Directory(root) + "/" + path
  }

  // ---- Walking a relative path from the root ends at the path ----

  /** Going down one element at a time, and up for "..". */
  function Walk(from: seq<string>, es: seq<string>): seq<string>
    decreases |es|
  {
    if es == [] then from
    else if es[0] == ".." then Walk(if from == [] then [] else from[..|from| - 1], es[1..])
    else Walk(from + [es[0]], es[1..])
  }

  /** The relative path as text: the empty one stays where it is. */
  function WalkPath(root: string, relative: string): seq<string> {
    Walk(RootElements(root), if relative == "" then [] else Split(relative))
  }

  ghost predicate NoUps(es: seq<string>) {
    forall i :: 0 <= i < |es| ==> es[i] != ".."
  }

  lemma {:induction false} WalkDown(from: seq<string>, es: seq<string>)
    requires NoUps(es)
    ensures Walk(from, es) == from + es
    decreases |es|
  {
    if es != [] {
      WalkDown(from + [es[0]], es[1..]);
      assert from + [es[0]] + es[1..] == from + es;
    }
  }

  lemma {:induction false} WalkUp(from: seq<string>, n: nat, es: seq<string>)
    requires n <= |from|
    ensures Walk(from, Ups(n) + es) == Walk(from[..|from| - n], es)
  {
    if n == 0 {
      assert Ups(0) + es == es && from[..|from|] == from;
    } else {
      var all := Ups(n) + es;
      assert all[1..] == Ups(n - 1) + es;
      WalkUp(from[..|from| - 1], n - 1, es);
      assert from[..|from| - 1][..|from| - n] == from[..|from| - n];
    }
  }

  lemma WalkRelativeElements(root: string, path: string)
    requires NoUps(PathElements(path))
    ensures Walk(RootElements(root), RelativeElements(root, path)) == PathElements(path)
  {
    var rs, ps := RootElements(root), PathElements(path);
    var k := Shared(rs, ps);
    hide RootElements, PathElements, Walk, Shared;
    WalkUp(rs, |rs| - k, ps[k..]);
    WalkDown(rs[..k], ps[k..]);
    assert ps[..k] + ps[k..] == ps;
  }

  lemma UpsFirst(n: nat, es: seq<string>)
    ensures n > 0 ==> (Ups(n) + es)[0] == ".."
  {
  }

  /** The one path whose relative text would be nothing but a closing slash is the root with a slash more. */
  lemma LoneSlash(root: string, path: string)
    ensures RelativeElements(root, path) == [""] <==> PathElements(path) == RootElements(root) + [""]
  {
    var rs, ps := RootElements(root), PathElements(path);
    hide RootElements, PathElements;
    var k := Shared(rs, ps);
    var es := RelativeElements(root, path);
    if ps == rs + [""] {
      SharedAll(rs, [""]);
      assert Ups(0) + ps[k..] == [""];
    }
    if es == [""] {
      UpsFirst(|rs| - k, ps[k..]);
      assert ps == ps[..k] + ps[k..];
    }
  }

  /** The text leads back to the path's elements unless the path is the root with a closing slash more. */
  lemma RelativePathLeadsBack(root: string, path: string)
    requires GetProtocol(root) == GetProtocol(path) && Shared(RootElements(root), PathElements(path)) > 0
    requires NoUps(PathElements(path))
    ensures WalkPath(root, RelativePath(root, path)) == PathElements(path) <==>
      PathElements(path) != RootElements(root) + [""]
  {
    var es := RelativeElements(root, path);
    WalkRelativeElements(root, path);
    LoneSlash(root, path);
    SplitSlashFree(RemoveProtocol(path));
    assert AllSlashFree(es);
    hide RootElements, PathElements, Shared, GetProtocol, RelativeElements;
    if es != [] && es != [""] {
      SplitJoin(es);
      assert Join(es) != "";
    }
  }

  // ---- Round trip ----

  /** Text below a directory: not empty, no slash in front, no two slashes in a row. */
  ghost predicate Below(rest: string) {
    && rest != "" && rest[0] != '/'
    && forall i :: 0 < i < |rest| && rest[i] == '/' ==> rest[i - 1] != '/'
  }

  lemma SameProtocol(s: string, t: string)
    requires forall i :: ColonSlashSlashAt(s, i) <==> ColonSlashSlashAt(t, i)
    ensures FindProtocol(s) == FindProtocol(t)
  {
    var p, q := FindProtocol(s), FindProtocol(t);
    hide FindProtocol, ColonSlashSlashAt;
    assert p >= 0 ==> ColonSlashSlashAt(s, p);
    assert q >= 0 ==> ColonSlashSlashAt(t, q);
  }

  predicate AfterColon(d: string) {
    |d| >= 2 && d[|d| - 2] == ':' && d[|d| - 1] == '/'
  }

  /** Neither a slash nor anything below the directory makes another "://". */
  lemma BelowAddsNone(d: string, rest: string)
    requires Below(rest) && !AfterColon(d)
    ensures FindProtocol(d + "/" + rest) == FindProtocol(d)
  {
    var path := d + "/" + rest;
    forall i ensures ColonSlashSlashAt(path, i) <==> ColonSlashSlashAt(d, i) {
      hide FindProtocol;
    }
    SameProtocol(path, d);
  }

  lemma SlashAddsNone(d: string)
    requires !AfterColon(d)
    ensures FindProtocol(d + "/") == FindProtocol(d)
  {
    forall i ensures ColonSlashSlashAt(d + "/", i) <==> ColonSlashSlashAt(d, i) {
      hide FindProtocol;
    }
    SameProtocol(d + "/", d);
  }

  lemma ProtocolStays(root: string, rest: string)
    requires Below(rest)
    ensures FindProtocol(Directory(root) + "/" + rest) == FindProtocol(Directory(root)) == FindProtocol(root)
    ensures Directory(root) == root || root == Directory(root) + "/"
  {
    var d := Directory(root);
    NotAfterColon(root);
    BelowAddsNone(d, rest);
    SlashAddsNone(d);
    assert d != root ==> root == d + "/";
  }

  lemma NotAfterColon(root: string)
    ensures !AfterColon(Directory(root))
  {
    Endings(root);
    hide EndsWith;
  }

  lemma Endings(s: string)
    ensures EndsWith(s, "/") <==> |s| >= 1 && s[|s| - 1] == '/'
    ensures EndsWith(s, "://") <==> |s| >= 3 && ColonSlashSlashAt(s, |s| - 3)
  {
  }

  /** A root that closes with a second "://". */
  predicate TwoProtocols(root: string) {
    EndsWith(root, "://") && RemoveProtocol(root) != ""
  }

  lemma RemoveBefore(d: string, t: string)
    requires FindProtocol(d + t) == FindProtocol(d)
    ensures RemoveProtocol(d + t) == RemoveProtocol(d) + t
  {
    var p := FindProtocol(d);
    assert p < 0 || p + 3 <= |d|;
    hide FindProtocol;
    if p >= 0 { assert (d + t)[p + 3..] == d[p + 3..] + t; }
  }

  lemma ElementsOfPath(root: string, rest: string)
    requires Below(rest)
    ensures PathElements(Directory(root) + "/" + rest) == Split(RemoveProtocol(Directory(root))) + Split(rest)
  {
    hide Directory, FindProtocol, Split, RemoveProtocol, Below;
    ProtocolStays(root, rest);
    var d := Directory(root);
    var r := RemoveProtocol(d);
    assert d + "/" + rest == d + ("/" + rest) && r + "/" + rest == r + ("/" + rest);
    RemoveBefore(d, "/" + rest);
    SplitAtSlash(r, rest);
  }

  lemma SplitClosingSlash(r: string)
    ensures Split(r + "/") == Split(r) + [""]
  {
    SplitAtSlash(r, "");
    assert r + "/" + "" == r + "/";
  }

  function ElementsOfText(r: string): seq<string> {
    var t := if r == "" then "/" else r;
    if EndsWith(t, "/") then Split(t)[..|Split(t)| - 1] else Split(t)
  }

  /** An extra slash changes nothing for a directory's elements. */
  lemma ElementsOfTextIs(r: string)
    ensures ElementsOfText(r + "/") == Split(r)
    ensures ElementsOfText("") == Split("")
    ensures r != "" && r[|r| - 1] != '/' ==> ElementsOfText(r) == Split(r)
    ensures r != "" && r[|r| - 1] == '/' ==>
      |Split(r)| >= 2 && ElementsOfText(r) == Split(r)[..|Split(r)| - 1] && Split(r)[|Split(r)| - 1] == ""
  {
    hide Split, EndsWith;
    Endings(r);
    Endings(r + "/");
    Endings("/");
    SplitClosingSlash(r);
    SplitClosingSlash("");
    assert "" + "/" == "/";
    if r != "" && r[|r| - 1] == '/' {
      SplitClosingSlash(r[..|r| - 1]);
      assert r[..|r| - 1] + "/" == r;
    }
  }

  lemma RootElementsIs(root: string)
    ensures RootElements(root) == ElementsOfText(RemoveProtocol(root))
  {
    hide RemoveProtocol, Split, EndsWith;
  }

  lemma LastOfRest(root: string)
    ensures var r := RemoveProtocol(root); r != "" ==> |root| > 0 && r[|r| - 1] == root[|root| - 1]
  {
    hide FindProtocol;
  }

  lemma ElementsOfRoot(root: string, rest: string)
    requires Below(rest)
    ensures var r := Split(RemoveProtocol(Directory(root)));
      if TwoProtocols(root) then Directory(root) == root && |r| >= 2 && r[|r| - 1] == ""
        && RootElements(root) == r[..|r| - 1]
      else RootElements(root) == r
  {
    hide FindProtocol, Split, ElementsOfText, RootElements, RemoveProtocol, EndsWith;
    ProtocolStays(root, rest);
    Endings(root);
    var d := Directory(root);
    ElementsOfTextIs(RemoveProtocol(d));
    RootElementsIs(root);
    LastOfRest(root);
    if d != root { RemoveBefore(d, "/"); }
  }

  lemma SharedAll(r: seq<string>, more: seq<string>)
    ensures Shared(r, r + more) == |r| && (r + more)[|r|..] == more
  {
    SharedIs(r, r + more, |r|);
  }

  lemma SameSpelling(root: string, rest: string)
    requires Below(rest)
    ensures GetProtocol(root) == GetProtocol(Directory(root) + "/" + rest)
  {
    ProtocolStays(root, rest);
    var p := FindProtocol(root);
    var path := Directory(root) + "/" + rest;
    hide FindProtocol, ToLower;
    if p >= 0 { assert root[..p] == path[..p]; }
  }

  lemma JoinFront(e: string, es: seq<string>)
    requires |es| >= 1
    ensures Join([e] + es) == e + "/" + Join(es)
  {
    assert ([e] + es)[1..] == es;
  }

  lemma LastEmpty(r: seq<string>, es: seq<string>)
    requires |r| >= 1 && r[|r| - 1] == ""
    ensures r + es == r[..|r| - 1] + ([""] + es)
  {
    assert r == r[..|r| - 1] + [""];
  }

  function Further(root: string, rest: string): seq<string> {
    if TwoProtocols(root) then [""] + Split(rest) else Split(rest)
  }

  lemma PathElementsAre(root: string, rest: string)
    requires Below(rest)
    ensures |RootElements(root)| > 0
      && PathElements(Directory(root) + "/" + rest) == RootElements(root) + Further(root, rest)
  {
    hide GetProtocol, RootElements, PathElements, TwoProtocols, Directory, Join, RemoveProtocol, FindProtocol, EndsWith;
    ElementsOfPath(root, rest);
    ElementsOfRoot(root, rest);
    var r := Split(RemoveProtocol(Directory(root)));
    hide Split;
    if TwoProtocols(root) { LastEmpty(r, Split(rest)); }
  }

  lemma RelativeElementsAre(root: string, path: string, more: seq<string>)
    requires PathElements(path) == RootElements(root) + more
    ensures Shared(RootElements(root), PathElements(path)) == |RootElements(root)|
      && RelativeElements(root, path) == more
  {
    hide RootElements, PathElements, Shared;
    SharedAll(RootElements(root), more);
    assert Ups(0) + more == more;
  }

  lemma RelativeIs(root: string, rest: string)
    requires Below(rest)
    ensures RelativePath(root, Directory(root) + "/" + rest) == if TwoProtocols(root) then "/" + rest else rest
  {
    hide RelativePath, GetProtocol, RootElements, PathElements, TwoProtocols, Directory, Shared, Split, Join;
    PathElementsAre(root, rest);
    RelativeElementsAre(root, Directory(root) + "/" + rest, Further(root, rest));
    SameSpelling(root, rest);
    RelativeIsJoin(root, Directory(root) + "/" + rest);
    JoinSplit(rest);
    JoinFront("", Split(rest));
    assert "" + "/" + rest == "/" + rest;
  }

  lemma RelativeIsJoin(root: string, path: string)
    requires GetProtocol(root) == GetProtocol(path) && Shared(RootElements(root), PathElements(path)) > 0
    ensures RelativePath(root, path) == Join(RelativeElements(root, path))
  {
  }

  /** What lies below a directory is its own relative path, and joined to the directory again it is the
      original text. The one exception is a root that closes with a second "://". */
  lemma RoundTrip(root: string, rest: string)
    requires Below(rest)
    ensures RelativePath(root, Directory(root) + "/" + rest) == rest <==> !TwoProtocols(root)
    ensures var path := Directory(root) + "/" + rest;
      AbsolutePath(root, RelativePath(root, path)) == path <==> !TwoProtocols(root)
  {
    RelativeIs(root, rest);
    hide RelativePath;
    if TwoProtocols(root) { assert |Directory(root)| > 0; }
  }

  lemma DoubledRoot(root: string)
    requires |root| >= 8 && ColonSlashSlashAt(root, 1) && ColonSlashSlashAt(root, |root| - 3)
    ensures TwoProtocols(root) && Directory(root) == root
  {
    hide FindProtocol;
    Endings(root);
  }

  /** There is such a root, and below it the way back is lost. */
  lemma TwoProtocolsHappens()
    ensures var root := "a://b://";
      && TwoProtocols(root)
      && RelativePath(root, root + "/c") == "/c" == AbsolutePath(root, RelativePath(root, root + "/c"))
  {
    var root := "a://b://";
    DoubledRoot(root);
    AbsoluteStays(root, "/c");
    hide *;
    assert root + "/" + "c" == root + "/c" && "/" + "c" == "/c";
    PlainName("c");
    RelativeIs(root, "c");
  }

  lemma AbsoluteStays(root: string, path: string)
    requires path != "" && path[0] == '/'
    ensures AbsolutePath(root, path) == path
  {
    hide FindProtocol;
  }

  lemma PlainName(name: string)
    requires |name| == 1 && name[0] != '/'
    ensures Below(name)
  {
  }

  // ---- Paths that have nothing to do with the root ----

  /** The same letter, small or capital, or the same other character. */
  predicate SameLetter(c: char, d: char) {
    c == d || ('A' <= c <= 'Z' && d as int == c as int + 32) || ('A' <= d <= 'Z' && c as int == d as int + 32)
  }

  predicate SameWord(s: string, t: string) {
    |s| == |t| && forall i :: 0 <= i < |s| ==> SameLetter(s[i], t[i])
  }

  /** Protocols are the same whatever case their letters have, and in no other way. */
  lemma ProtocolsIgnoreCase(s: string, t: string)
    ensures ToLower(s) == ToLower(t) <==> SameWord(s, t)
  {
    if ToLower(s) == ToLower(t) {
      forall i | 0 <= i < |s| ensures SameLetter(s[i], t[i]) { assert ToLower(s)[i] == ToLower(t)[i]; }
    }
    if SameWord(s, t) {
      forall i | 0 <= i < |s| ensures ToLower(s)[i] == ToLower(t)[i] { assert SameLetter(s[i], t[i]); }
    }
  }

  /** What stands before the first "://". */
  function Scheme(path: string): string {
    if FindProtocol(path) >= 0 then path[..FindProtocol(path)] else ""
  }

  /** A path of another protocol, or one that does not even share the root's first element, is its own relative
      path. It comes back from there if and only if it says where it starts: with a protocol or a slash. */
  lemma ForeignPath(root: string, path: string)
    requires !SameWord(Scheme(root), Scheme(path)) || RootElements(root) == [] || PathElements(path) == []
      || RootElements(root)[0] != PathElements(path)[0]
    ensures RelativePath(root, path) == path
    ensures AbsolutePath(root, RelativePath(root, path)) == path <==>
      path == "" || path[0] == '/' || exists i :: ColonSlashSlashAt(path, i)
  {
    hide RootElements, PathElements, Split, Join;
    ProtocolsIgnoreCase(Scheme(root), Scheme(path));
    SchemeIs(root);
    SchemeIs(path);
    hide GetProtocol, Scheme;
    assert RelativePath(root, path) == path;
    assert |Directory(root) + "/" + path| > |path|;
  }

  lemma SchemeIs(path: string)
    ensures GetProtocol(path) == ToLower(Scheme(path))
  {
    hide FindProtocol;
  }
}
