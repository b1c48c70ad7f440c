/**
 * The Ray Serve configuration: the application list is filtered within its own backing array,
 * then each kept entry is completed in place.
 */
module ServeConfig {
  import opened Api
  import opened Admission

  datatype RuntimeEnv = RuntimeEnv(workingDir: string, envVars: map<string, string>, pip: Option<seq<string>>)
  datatype App = App(name: string, importPath: string, routePrefix: string, runtimeEnv: Option<RuntimeEnv>)

  // ---- the S3 client ----------------------------------------------------------------------------------

  /** objects are the keys in the bucket; the probe of a key in broken fails with something else than 404. */
  datatype S3Client = S3Client(bucket: string, prefix: string, objects: set<string>, broken: set<string>)

  function ProbedKey(c: S3Client, file: string): string {
    c.prefix + "/" + file
  }

  function BuildWorkingDir(c: S3Client, file: string): string {
    if c.prefix == "" then "s3://" + c.bucket + "/" + file
    else "s3://" + c.bucket + "/" + c.prefix + "/" + file
  }

  /** The working directory names the probed object exactly when the prefix is not empty. */
  lemma WorkingDirProbedIff(c: S3Client, file: string)
    ensures BuildWorkingDir(c, file) == "s3://" + c.bucket + "/" + ProbedKey(c, file) <==> c.prefix != ""
  {
    var uri := "s3://" + c.bucket + "/" + ProbedKey(c, file);
    if c.prefix == "" {
      assert |BuildWorkingDir(c, file)| + 1 == |uri|;
    } else {
      assert BuildWorkingDir(c, file) == uri;
    }
  }

  // ---- where the client looks -------------------------------------------------------------------------

  const APPLICATIONS := "ray-services/ai-platform/applications"
  const ARTIFACTS := "model_artifacts"

  /** Strings of this section are byte strings, as the parser reads them. */
  datatype Location = Location(bucket: string, prefix: string)

  predicate BucketChar(c: char) {
    'a' <= c <= 'z' || 'A' <= c <= 'Z' || '0' <= c <= '9' || c == '.' || c == '-' || c == '_'
  }

  /** How far s goes without any of the stops. */
  function Before(s: string, stops: set<char>): (i: nat)
    ensures i <= |s| && (i < |s| ==> s[i] in stops) && forall j :: 0 <= j < i ==> s[j] !in stops
  {
    if s == "" || s[0] in stops then 0 else 1 + Before(s[1..], stops)
  }

  function Cut(s: string, stops: set<char>): string {
    s[..Before(s, stops)]
  }

  /** What the CRD asks of an S3 path: a bucket of plain characters, then nothing or a slash and one line. */
  predicate PathPattern(path: string) {
    && HasPrefix(path, "s3://")
    && Before(path[5..], {'/'}) > 0
    && (forall j :: 5 <= j < 5 + Before(path[5..], {'/'}) ==> BucketChar(path[j]))
    && '\n' !in path
  }

  function HexDigit(c: char): Option<nat> {
    if '0' <= c <= '9' then Some((c - '0') as nat)
    else if 'a' <= c <= 'f' then Some((c - 'a') as nat + 10)
    else if 'A' <= c <= 'F' then Some((c - 'A') as nat + 10)
    else None
  }

  /** One step of percent decoding: how many characters it takes and what it makes of them. */
  function Step(s: string): (r: Option<(nat, char)>)
    requires s != ""
    ensures r.Some? ==> 0 < r.value.0 <= |s|
  {
    if s[0] != '%' then Some((1, s[0]))
    else if |s| < 3 || HexDigit(s[1]).None? || HexDigit(s[2]).None? then None
    else Some((3, (HexDigit(s[1]).value * 16 + HexDigit(s[2]).value) as char))
  }

  /** Percent decoding; None is a malformed escape. */
  function Unescape(s: string): (r: Option<string>)
    ensures r.Some? ==> (r.value == "" <==> s == "")
  {
    if s == "" then Some("")
    else if Step(s).None? then None
    else
      var t := Unescape(s[Step(s).value.0..]);
      if t.Some? then Some([Step(s).value.1] + t.value) else None
  }

  /** One byte as a percent escape, in either case of the digits. */
  function Escape(c: char, digits: string): string
    requires (c as int) < 256 && |digits| == 16
  {
    ['%', digits[(c as int) / 16], digits[(c as int) % 16]]
  }

  function EscapeAll(s: string, digits: string): string
    requires |digits| == 16 && forall i :: 0 <= i < |s| ==> (s[i] as int) < 256
  {
    if s == "" then "" else Escape(s[0], digits) + EscapeAll(s[1..], digits)
  }

  /** Decoding undoes percent encoding, byte by byte. */
  lemma {:induction false} UnescapeEscaped(s: string, digits: string)
    requires digits == "0123456789abcdef" || digits == "0123456789ABCDEF"
    requires forall i :: 0 <= i < |s| ==> (s[i] as int) < 256
    ensures Unescape(EscapeAll(s, digits)) == Some(s)
  {
    hide Step, Escape, HexDigit;
    if s != "" {
      var rest := EscapeAll(s[1..], digits);
      UnescapeEscaped(s[1..], digits);
      EscapedStep(s[0], digits, rest);
      assert [s[0]] + s[1..] == s;
    }
  }

  lemma EscapedStep(c: char, digits: string, rest: string)
    requires digits == "0123456789abcdef" || digits == "0123456789ABCDEF"
    requires (c as int) < 256
    ensures var t := Escape(c, digits) + rest;
            t != "" && Step(t) == Some((3, c)) && |t| >= 3 && t[3..] == rest
  {
    var e := Escape(c, digits);
    var t := e + rest;
    assert t[0] == '%' && t[1] == e[1] && t[2] == e[2] && t[3..] == rest;
    DigitValue(digits, (c as int) / 16);
    DigitValue(digits, (c as int) % 16);
    hide HexDigit;
    assert (c as int) / 16 * 16 + (c as int) % 16 == c as int;
  }

  lemma DigitValue(digits: string, i: nat)
    requires digits == "0123456789abcdef" || digits == "0123456789ABCDEF"
    requires i < 16
    ensures HexDigit(digits[i]) == Some(i)
  {
  }

  predicate HasControl(s: string) {
    exists i :: 0 <= i < |s| && (s[i] < ' ' || s[i] == 127 as char)
  }

  function TrimSlash(s: string): string {
    if s != "" && s[0] == '/' then s[1..] else s
  }

  /** What follows the bucket. */
  function AfterBucket(s: string): string
    requires |s| >= 5
  {
    s[5..][Before(s[5..], {'/'})..]
  }

  /** The fragment with its mark, what precedes it, and the bucket and encoded path of that without its query. */
  datatype Parts = Parts(noFragment: string, fragment: string, bucket: string, encoded: string)

  function PartsOf(uri: string): Parts
    requires PathPattern(uri)
  {
    var noFragment := Cut(uri, {'#'});
    var noQuery := Cut(noFragment, {'?'});
    assert |noQuery| >= 5 by { CutKeepsScheme(uri); }
    Parts(noFragment, uri[|noFragment|..], Cut(noQuery[5..], {'/'}), AfterBucket(noQuery))
  }

  /** The path is decoded and loses one slash. */
  function Resolve(p: Parts): Option<Location> {
    var path := Unescape(p.encoded);
    if HasControl(p.noFragment) || path.None? || Unescape(p.fragment).None? then None
    else Some(Location(p.bucket, TrimSlash(path.value)))
  }

  /** Bucket and prefix of a client. */
  function Locate(uri: string): Option<Location>
    requires PathPattern(uri)
  {
    Resolve(PartsOf(uri))
  }

  /** The storage path of a client for one folder. */
  function Folder(path: string, folder: string): string {
    path + "/" + folder
  }

  predicate PlainFolder(folder: string) {
    forall i :: 0 <= i < |folder| ==> 'a' <= folder[i] <= 'z' || folder[i] in {'-', '_', '/'}
  }

  /** A query or fragment in the storage path swallows whatever is appended to it. */
  predicate Swallows(path: string) {
    '?' in path || '#' in path
  }

  /** The query or fragment begins right behind the slash that ends the bucket. */
  predicate StartsAtRoot(path: string)
    requires |path| >= 5
  {
    |AfterBucket(path)| > 1 && AfterBucket(path)[1] in {'?', '#'}
  }

  // the lemmas about cutting

  lemma CutIs(s: string, stops: set<char>, n: nat)
    requires n <= |s| && (n < |s| ==> s[n] in stops) && forall j :: 0 <= j < n ==> s[j] !in stops
    ensures Before(s, stops) == n && Cut(s, stops) == s[..n]
  {
  }

  lemma NoStopsInScheme(uri: string, i: nat)
    requires PathPattern(uri) && i < 5 + Before(uri[5..], {'/'})
    ensures uri[i] !in {'?', '#'}
  {
    if i < 5 {
      assert uri[i] == uri[..5][i] == "s3://"[i];
    } else {
      assert BucketChar(uri[i]);
    }
  }

  /** Neither the fragment nor the query can begin within the scheme or the bucket. */
  lemma CutBehindBucket(uri: string)
    requires PathPattern(uri)
    ensures var n, b := Before(uri, {'?', '#'}), 5 + Before(uri[5..], {'/'});
            && 5 < b <= n && (n < |uri| ==> uri[b] == '/' && b < n)
  {
    var n, b := Before(uri, {'?', '#'}), 5 + Before(uri[5..], {'/'});
    if b < |uri| {
      assert uri[b] == uri[5..][b - 5];
    }
    if n < b {
      NoStopsInScheme(uri, n);
    }
  }

  /** Cutting twice is cutting once at whichever comes first, and keeps the bucket. */
  lemma CutKeepsScheme(uri: string)
    requires PathPattern(uri)
    ensures var noQuery, n := Cut(Cut(uri, {'#'}), {'?'}), Before(uri, {'?', '#'});
            && noQuery == uri[..n] && 5 <= n
            && Before(noQuery[5..], {'/'}) == Before(uri[5..], {'/'}) <= n - 5
  {
    hide PathPattern;
    CutBehindBucket(uri);
    var n, f, b := Before(uri, {'?', '#'}), Before(uri, {'#'}), Before(uri[5..], {'/'});
    assert n <= f;
    CutIs(uri[..f], {'?'}, n) by {
      assert n < f ==> uri[..f][n] == uri[n] && uri[n] != '#';
    }
    assert uri[..f][..n] == uri[..n];
    assert uri[..n][5..] == uri[5..n];
    assert forall j :: 0 <= j < n - 5 ==> uri[5..n][j] == uri[5..][j];
    CutIs(uri[5..n], {'/'}, b);
  }

  lemma StepAppend(a: string, b: string)
    requires a != "" && b != "" && b[0] == '/'
    ensures Step(a + b) == Step(a)
  {
    assert (a + b)[0] == a[0] && (a + b)[|a|] == b[0];
    assert |a| > 1 ==> (a + b)[1] == a[1];
    assert |a| > 2 ==> (a + b)[2] == a[2];
  }

  function Both(a: Option<string>, b: Option<string>): Option<string> {
    if a.Some? && b.Some? then Some(a.value + b.value) else None
  }

  lemma BothAssociates(c: char, a: Option<string>, b: Option<string>)
    ensures Both(Some([c]), Both(a, b)) == Both(Both(Some([c]), a), b)
  {
    if a.Some? && b.Some? {
      assert [c] + (a.value + b.value) == ([c] + a.value) + b.value;
    }
  }

  lemma UnescapeFirst(s: string)
    requires s != ""
    ensures Unescape(s) == if Step(s).None? then None else Both(Some([Step(s).value.1]), Unescape(s[Step(s).value.0..]))
  {
  }

  lemma {:induction false} UnescapeAppend(a: string, b: string)
    requires b != "" && b[0] == '/'
    ensures Unescape(a + b) == Both(Unescape(a), Unescape(b))
  {
    if a == "" {
      assert a + b == b;
      if Unescape(b).Some? {
        assert "" + Unescape(b).value == Unescape(b).value;
      }
    } else {
      hide *;
      UnescapeFirst(a);
      UnescapeFirst(a + b);
      StepAppend(a, b);
      if Step(a).Some? {
        var n, c := Step(a).value.0, Step(a).value.1;
        assert (a + b)[n..] == a[n..] + b;
        UnescapeAppend(a[n..], b);
        BothAssociates(c, Unescape(a[n..]), Unescape(b));
      } else {
        assert Unescape(a) == None;
        BothNone(Unescape(b));
      }
    }
  }

  lemma BothNone(b: Option<string>)
    ensures Both(None, b) == None
  {
  }

  lemma {:induction false} UnescapePlain(s: string)
    requires '%' !in s
    ensures Unescape(s) == Some(s)
  {
    if s != "" {
      UnescapePlain(s[1..]);
      assert s == [s[0]] + s[1..];
    }
  }

  // where a folder ends up

  lemma BeforeAppend(a: string, b: string, stops: set<char>)
    ensures Before(a + b, stops) == (if Before(a, stops) < |a| then Before(a, stops) else |a| + Before(b, stops))
  {
    CutIs(a + b, stops, if Before(a, stops) < |a| then Before(a, stops) else |a| + Before(b, stops));
  }

  lemma PlainTailUncut(folder: string)
    requires PlainFolder(folder)
    ensures Before("/" + folder, {'?', '#'}) == Before("/" + folder, {'#'}) == |folder| + 1 && Before("/" + folder, {'/'}) == 0
    ensures '\n' !in "/" + folder
  {
    var tail := "/" + folder;
    assert forall i :: 0 < i < |tail| ==> tail[i] == folder[i - 1];
    CutIs(tail, {'?', '#'}, |tail|);
    CutIs(tail, {'#'}, |tail|);
    CutIs(tail, {'/'}, 0);
  }

  lemma FolderCut(path: string, folder: string)
    requires PathPattern(path) && PlainFolder(folder)
    ensures var uri := Folder(path, folder);
            && PathPattern(uri)
            && Before(uri, {'?', '#'}) == (if Swallows(path) then Before(path, {'?', '#'}) else |uri|)
            && Before(uri, {'#'}) == (if '#' in path then Before(path, {'#'}) else |uri|)
            && Before(uri[5..], {'/'}) == Before(path[5..], {'/'})
  {
    hide PlainFolder, Before;
    var uri, tail := Folder(path, folder), "/" + folder;
    assert uri == path + tail && uri[..5] == path[..5] && uri[5..] == path[5..] + tail;
    PlainTailUncut(folder);
    CutWhole(path);
    BeforeAppend(path[5..], tail, {'/'});
    BeforeAppend(path, tail, {'?', '#'});
    BeforeAppend(path, tail, {'#'});
  }

  /** The parts in terms of how far the path goes without a query or fragment. */
  lemma PartsAre(uri: string)
    requires PathPattern(uri)
    ensures var f, n, b := Before(uri, {'#'}), Before(uri, {'?', '#'}), 5 + Before(uri[5..], {'/'});
            && 5 < b <= n <= |uri| && (b < n ==> uri[b] == '/') && (n < |uri| ==> b < n)
            && PartsOf(uri) == Parts(uri[..f], uri[f..], uri[5..b], uri[b..n])
  {
    hide PathPattern, Before;
    CutBehindBucket(uri);
    CutKeepsScheme(uri);
    var f, n, b := Before(uri, {'#'}), Before(uri, {'?', '#'}), 5 + Before(uri[5..], {'/'});
    var noQuery := uri[..n];
    assert AfterBucket(noQuery) == uri[b..n];
    assert Cut(noQuery[5..], {'/'}) == uri[5..b];
  }

  /** Cutting out of a longer string, in terms of the same cut of its start. */
  lemma Slice(path: string, tail: string, i: nat, j: nat)
    requires i <= j <= |path|
    ensures (path + tail)[i..j] == path[i..j]
    ensures (path + tail)[i..|path + tail|] == path[i..|path|] + tail
  {
  }

  lemma FolderFragment(path: string, folder: string)
    requires PathPattern(path) && PlainFolder(folder)
    ensures PathPattern(Folder(path, folder))
    ensures var p, q, tail := PartsOf(path), PartsOf(Folder(path, folder)), "/" + folder;
            if '#' in path then q.noFragment == p.noFragment && q.fragment == p.fragment + tail
            else q.noFragment == p.noFragment + tail && q.fragment == p.fragment == ""
  {
    hide PathPattern, PartsOf, Before, Swallows, PlainFolder, Folder;
    var uri, tail := Folder(path, folder), "/" + folder;
    assert uri == path + tail by { FolderAppends(path, folder); }
    FolderCut(path, folder);
    PartsAre(path);
    PartsAre(uri);
    CutWhole(path);
    var f := Before(path, {'#'});
    if '#' in path {
      Slice(path, tail, 0, f);
      Slice(path, tail, f, |path|);
    } else {
      assert path[|path|..] == uri[|uri|..] == "" && path[..|path|] == path && uri[..|uri|] == uri;
    }
  }

  lemma FolderEncoded(path: string, folder: string)
    requires PathPattern(path) && PlainFolder(folder)
    ensures PathPattern(Folder(path, folder))
    ensures var p, q := PartsOf(path), PartsOf(Folder(path, folder));
            && q.bucket == p.bucket && (p.encoded == "" || p.encoded[0] == '/') && (Swallows(path) ==> p.encoded != "")
            && q.encoded == if Swallows(path) then p.encoded else p.encoded + ("/" + folder)
  {
    hide PathPattern, PartsOf, Before, Swallows, PlainFolder, Folder;
    var uri, tail := Folder(path, folder), "/" + folder;
    assert uri == path + tail by { FolderAppends(path, folder); }
    FolderCut(path, folder);
    PartsAre(path);
    PartsAre(uri);
    CutWhole(path);
    var n, b := Before(path, {'?', '#'}), 5 + Before(path[5..], {'/'});
    Slice(path, tail, 5, b);
    Slice(path, tail, b, n);
  }

  /** How appending a folder changes the parts. */
  lemma FolderParts(path: string, folder: string)
    requires PathPattern(path) && PlainFolder(folder)
    ensures PathPattern(Folder(path, folder))
    ensures var p, tail := PartsOf(path), "/" + folder;
            && (p.encoded == "" || p.encoded[0] == '/')
            && (Swallows(path) ==> p.encoded != "")
            && PartsOf(Folder(path, folder)) == (
                 if '#' in path then p.(fragment := p.fragment + tail, encoded := if Swallows(path) then p.encoded else p.encoded + tail)
                 else Parts(p.noFragment + tail, "", p.bucket, if Swallows(path) then p.encoded else p.encoded + tail))
            && ('#' !in path ==> p.fragment == "")
  {
    hide PathPattern, PartsOf, Before, Swallows, PlainFolder, Folder;
    FolderFragment(path, folder);
    FolderEncoded(path, folder);
  }

  lemma FolderAppends(path: string, folder: string)
    ensures Folder(path, folder) == path + ("/" + folder)
  {
  }

  lemma CutWhole(path: string)
    ensures var f, n := Before(path, {'#'}), Before(path, {'?', '#'});
            && ('#' in path <==> f < |path|) && (Swallows(path) <==> n < |path|)
  {
  }

  lemma ControlAppend(a: string, b: string)
    requires !HasControl(b)
    ensures HasControl(a + b) <==> HasControl(a)
  {
    if i :| 0 <= i < |a| && (a[i] < ' ' || a[i] == 127 as char) {
      assert (a + b)[i] == a[i];
    }
  }

  /**
   * Appending a folder never changes whether the storage path parses. A query or fragment hides
   * the folder; otherwise it follows the storage path's own prefix.
   */
  lemma FolderLocated(path: string, folder: string)
    requires PathPattern(path) && PlainFolder(folder)
    ensures PathPattern(Folder(path, folder))
    ensures var own, r := Locate(path), Locate(Folder(path, folder));
            && (r.Some? <==> own.Some?)
            && (r.Some? ==>
                  && r.value.bucket == own.value.bucket
                  && r.value.prefix == (if Swallows(path) then own.value.prefix
                                        else if AfterBucket(path) == "" then folder
                                        else own.value.prefix + "/" + folder))
  {
    hide HasControl, PartsOf, PathPattern, Unescape, AfterBucket, Swallows, TrimSlash, PlainFolder, Folder;
    var p, tail := PartsOf(path), "/" + folder;
    FolderParts(path, folder);
    PlainTail(folder);
    ObjectEmptyIff(path);
    ControlAppend(p.noFragment, tail);
    UnescapeAppend(p.fragment, tail);
    UnescapeAppend(p.encoded, tail);
    UnescapePlain("");
    if Unescape(p.encoded).Some? {
      DecodedObject(p.encoded, folder);
    }
  }

  lemma ObjectEmptyIff(path: string)
    requires PathPattern(path)
    ensures |path| >= 5
    ensures !Swallows(path) ==> PartsOf(path).encoded == AfterBucket(path)
    ensures Swallows(path) ==> (|PartsOf(path).encoded| == 1 <==> StartsAtRoot(path)) && PartsOf(path).encoded != ""
    ensures !Swallows(path) ==> !StartsAtRoot(path)
  {
    hide PathPattern, PartsOf;
    PartsAre(path);
    var n, b := Before(path, {'?', '#'}), 5 + Before(path[5..], {'/'});
    assert AfterBucket(path) == path[b..];
    assert |path| > b + 1 ==> AfterBucket(path)[1] == path[b + 1];
  }

  lemma PlainTail(folder: string)
    requires PlainFolder(folder)
    ensures !HasControl("/" + folder) && Unescape("/" + folder) == Some("/" + folder)
  {
    assert forall i :: 0 < i < |"/" + folder| ==> ("/" + folder)[i] == folder[i - 1];
    UnescapePlain("/" + folder);
  }

  lemma DecodedObject(obj: string, folder: string)
    requires obj == "" || obj[0] == '/'
    requires Unescape(obj).Some?
    ensures TrimSlash(Unescape(obj).value + ("/" + folder))
         == if obj == "" then folder else TrimSlash(Unescape(obj).value) + "/" + folder
  {
    var d := Unescape(obj).value;
    if obj == "" {
      assert d + ("/" + folder) == "/" + folder;
    } else {
      assert d[0] == '/';
      assert (d + ("/" + folder))[1..] == d[1..] + "/" + folder;
    }
  }

  lemma FoldersArePlain()
    ensures PlainFolder(APPLICATIONS) && PlainFolder(ARTIFACTS)
  {
  }

  /** The applications client has no prefix exactly when the query or fragment begins right behind the bucket. */
  lemma PrefixLostIff(path: string)
    requires PathPattern(path) && Locate(path).Some?
    ensures |path| >= 5 && PathPattern(Folder(path, APPLICATIONS)) && Locate(Folder(path, APPLICATIONS)).Some?
    ensures Locate(Folder(path, APPLICATIONS)).value.prefix == "" <==> StartsAtRoot(path)
  {
    hide HasControl, PartsOf, PathPattern, Unescape, AfterBucket, StartsAtRoot, Swallows, TrimSlash, PlainFolder, Folder;
    FoldersArePlain();
    FolderLocated(path, APPLICATIONS);
    FolderParts(path, APPLICATIONS);
    ObjectEmptyIff(path);
    if Swallows(path) {
      SingleSlash(PartsOf(path).encoded);
    }
  }

  lemma SingleSlash(obj: string)
    requires obj != "" && obj[0] == '/' && Unescape(obj).Some?
    ensures TrimSlash(Unescape(obj).value) == "" <==> |obj| == 1
  {
    assert Unescape(obj).value[1..] == Unescape(obj[1..]).value;
  }

  /** The applications and the artifacts are looked for in one place exactly when the path has a query or fragment. */
  lemma FoldersMeetIff(path: string)
    requires PathPattern(path) && Locate(path).Some?
    ensures PathPattern(Folder(path, APPLICATIONS)) && PathPattern(Folder(path, ARTIFACTS))
    ensures Locate(Folder(path, APPLICATIONS)) == Locate(Folder(path, ARTIFACTS)) <==> Swallows(path)
  {
    hide Locate, PathPattern, Swallows, AfterBucket;
    FoldersArePlain();
    FolderLocated(path, APPLICATIONS);
    FolderLocated(path, ARTIFACTS);
    var own := Locate(path).value.prefix;
    assert |own + "/" + APPLICATIONS| != |own + "/" + ARTIFACTS|;
  }

  // ---- names --------------------------------------------------------------------------------------------

  function Split(s: string): (words: seq<string>)
    ensures |words| > 0
  {
    if s == "" then [""]
    else if s[0] == '_' then [""] + Split(s[1..])
    else [[s[0]] + Split(s[1..])[0]] + Split(s[1..])[1..]
  }

  function Upper(c: char): char {
    if 'a' <= c <= 'z' then c - 'a' + 'A' else c
  }

  function LowerChar(c: char): char {
    if 'A' <= c <= 'Z' then c - 'A' + 'a' else c
  }

  function Lower(s: string): string {
    seq(|s|, i requires 0 <= i < |s| => LowerChar(s[i]))
  }

  function Capitalized(words: seq<string>): string
    requires forall i :: 0 <= i < |words| ==> words[i] != ""
  {
    if words == [] then "" else Capitalized(words[..|words| - 1]) + [Upper(words[|words| - 1][0])] + words[|words| - 1][1..]
  }

  /** toCamelCase indexes the first rune of every word but the first. */
  predicate Splittable(s: string) {
    forall i :: 0 < i < |Split(s)| ==> Split(s)[i] != ""
  }

  function CamelCase(s: string): string
    requires Splittable(s)
  {
    Split(s)[0] + Capitalized(Split(s)[1..])
  }

  method ToCamelCase(s: string) returns (panicked: bool, result: string)
    ensures panicked <==> !Splittable(s)
    ensures !panicked ==> result == CamelCase(s)
  {
    hide Split, Upper;
    var words := Split(s);
    result := "";
    for i := 0 to |words|
      invariant forall j :: 0 < j < i ==> words[j] != ""
      invariant result == if i == 0 then "" else words[0] + Capitalized(words[1..i])
    {
      if i == 0 {
        result := result + words[i];
        assert words[1..1] == [];
        continue;
      }
      if words[i] == "" {
        return true, "";
      }
      assert words[1..i + 1] == words[1..i] + [words[i]];
      assert words[1..i + 1][..i - 1] == words[1..i];
      result := result + [Upper(words[i][0])] + words[i][1..];
    }
    assert words[1..|words|] == words[1..];
    return false, result;
  }

  /** An underscore that ends the name or is followed by another. */
  predicate DanglingUnderscore(s: string) {
    exists p :: 0 <= p < |s| && s[p] == '_' && (p + 1 == |s| || s[p + 1] == '_')
  }

  lemma DanglingStep(s: string)
    requires s != ""
    ensures DanglingUnderscore(s) <==> DanglingUnderscore(s[1..]) || (s[0] == '_' && (|s| == 1 || s[1] == '_'))
  {
    var t := s[1..];
    if p :| 0 <= p < |t| && t[p] == '_' && (p + 1 == |t| || t[p + 1] == '_') {
      assert s[p + 1] == '_' && (p + 2 == |s| || s[p + 2] == '_');
    }
    if p :| 0 < p < |s| && s[p] == '_' && (p + 1 == |s| || s[p + 1] == '_') {
      assert t[p - 1] == '_' && (p == |t| || t[p] == '_');
    }
    if s[0] == '_' && (|s| == 1 || s[1] == '_') {
      assert s[0] == '_' && (0 + 1 == |s| || s[0 + 1] == '_');
    }
  }

  /** The conversion panics on exactly these names. */
  lemma {:induction false} SplittableIff(s: string)
    ensures Splittable(s) <==> !DanglingUnderscore(s)
    ensures Split(s)[0] == "" <==> s == "" || s[0] == '_'
  {
    if s != "" {
      hide DanglingUnderscore;
      var t := s[1..];
      DanglingStep(s);
      SplittableIff(t);
      if s[0] == '_' {
        assert Split(s)[1] == Split(t)[0];
        assert forall i :: 1 <= i < |Split(s)| ==> Split(s)[i] == Split(t)[i - 1];
        assert forall i :: 0 <= i < |Split(t)| ==> Split(t)[i] == Split(s)[i + 1];
      } else {
        assert forall i :: 1 <= i < |Split(s)| ==> Split(s)[i] == Split(t)[i];
      }
    }
  }

  /** The same conversion in one pass: underscores vanish, and each makes the next letter a capital. */
  function Joined(s: string, capital: bool): string {
    if s == "" then ""
    else if s[0] == '_' then Joined(s[1..], true)
    else [if capital && 'a' <= s[0] <= 'z' then s[0] - 'a' + 'A' else s[0]] + Joined(s[1..], false)
  }

  lemma {:induction false} CapitalizedCons(words: seq<string>)
    requires words != [] && forall i :: 0 <= i < |words| ==> words[i] != ""
    ensures Capitalized(words) == [Upper(words[0][0])] + words[0][1..] + Capitalized(words[1..])
    decreases |words|
  {
    hide Upper;
    var n := |words| - 1;
    if n == 0 {
      assert words[..0] == [] && words[1..] == [];
    } else {
      var front, last := words[..n], [Upper(words[n][0])] + words[n][1..];
      CapitalizedCons(front);
      assert front[1..] == words[1..][..n - 1] && words[1..][n - 1] == words[n];
      assert Capitalized(words) == Capitalized(front) + [Upper(words[n][0])] + words[n][1..];
      assert Capitalized(words[1..]) == Capitalized(front[1..]) + [Upper(words[n][0])] + words[n][1..];
    }
  }

  /** Splitting and joining amounts to that pass, with the first word as it is. */
  lemma {:induction false} CamelCaseIs(s: string)
    requires Splittable(s)
    ensures CamelCase(s) == Joined(s, false)
    ensures Split(s)[0] != "" ==> [Upper(Split(s)[0][0])] + Split(s)[0][1..] + Capitalized(Split(s)[1..]) == Joined(s, true)
  {
    hide Upper;
    if s == "" {
    } else if s[0] == '_' {
      var t, rest := s[1..], Split(s[1..]);
      assert Split(s)[1..] == rest && Split(s)[1] == rest[0];
      assert forall i :: 0 <= i < |rest| ==> rest[i] == Split(s)[i + 1];
      CamelCaseIs(t);
      CapitalizedCons(rest);
    } else {
      var t, rest := s[1..], Split(s[1..]);
      assert Split(s)[1..] == rest[1..] && Split(s)[0] == [s[0]] + rest[0] && Split(s)[0][1..] == rest[0];
      assert forall i :: 1 <= i < |rest| ==> rest[i] == Split(s)[i];
      CamelCaseIs(t);
      UpperIs(s[0]);
      hide Split, Splittable;
      JoinedOn(s[0], rest[0], Capitalized(rest[1..]));
      JoinedOn(Upper(s[0]), rest[0], Capitalized(rest[1..]));
    }
  }

  lemma UpperIs(c: char)
    ensures Upper(c) == if 'a' <= c <= 'z' then c - 'a' + 'A' else c
  {
  }

  lemma JoinedOn(c: char, word: string, rest: string)
    ensures [c] + word + rest == [c] + (word + rest)
  {
  }

  // ---- one entry ------------------------------------------------------------------------------------------

  datatype Settings = Settings(client: S3Client, version: string, serviceName: string, provider: string, artifactBucket: string)

  function ArchiveOf(a: App, version: string): string {
    a.name + "-" + version + ".zip"
  }

  function InjectedEnv(a: App, s: Settings): map<string, string> {
    map["SERVICE_NAME" := s.serviceName, "SERVICE_INTERNAL_NAME" := s.serviceName, "USE_SYSTEM_PERMISSIONS" := "true",
        "APPLICATION_NAME" := a.name, "ARTIFACTS_PROVIDER" := s.provider, "ARTIFACTS_BUCKET" := s.artifactBucket]
  }

  const DEFAULT_PIP := ["azure-storage-blob", "google-cloud-storage"]

  function Completed(a: App, s: Settings): App
    requires Splittable(a.name)
  {
    var wd := BuildWorkingDir(s.client, ArchiveOf(a, s.version));
    var env := if a.runtimeEnv.Some? then a.runtimeEnv.value else RuntimeEnv("", map[], None);
    App(CamelCase(a.name),
        if a.importPath == "" then "main:create_serve_app" else a.importPath,
        if a.routePrefix == "" then "/" + Lower(a.name) else a.routePrefix,
        Some(RuntimeEnv(if env.workingDir == "" then wd else env.workingDir,
                        env.envVars + InjectedEnv(a, s),
                        if env.pip.None? then Some(DEFAULT_PIP) else env.pip)))
  }

  /** An entry after completion, field by field: what was set stays, what was not is derived from its name. */
  predicate EntryCompleted(a: App, s: Settings, d: App) {
    && d.name == Joined(a.name, false)
    && (a.importPath != "" ==> d.importPath == a.importPath) && (a.importPath == "" ==> d.importPath == "main:create_serve_app")
    && (a.routePrefix != "" ==> d.routePrefix == a.routePrefix)
    && (a.routePrefix == "" ==>
          && |d.routePrefix| == |a.name| + 1 && d.routePrefix[0] == '/'
          && forall i :: 0 <= i < |a.name| ==>
               d.routePrefix[i + 1] == (if 'A' <= a.name[i] <= 'Z' then a.name[i] - 'A' + 'a' else a.name[i]))
    && d.runtimeEnv.Some?
    && EnvCompleted(a, s, if a.runtimeEnv.Some? then a.runtimeEnv.value else RuntimeEnv("", map[], None), d.runtimeEnv.value)
  }

  predicate EnvCompleted(a: App, s: Settings, own: RuntimeEnv, env: RuntimeEnv) {
    && (own.workingDir != "" ==> env.workingDir == own.workingDir)
    && (own.workingDir == "" ==>
          env.workingDir == "s3://" + s.client.bucket + "/" + (if s.client.prefix == "" then "" else s.client.prefix + "/")
                            + (a.name + "-" + s.version + ".zip"))
    && env.pip == (if own.pip.Some? then own.pip else Some(["azure-storage-blob", "google-cloud-storage"]))
    && env.envVars == own.envVars["SERVICE_NAME" := s.serviceName]["SERVICE_INTERNAL_NAME" := s.serviceName]["USE_SYSTEM_PERMISSIONS" := "true"]
                      ["APPLICATION_NAME" := a.name]["ARTIFACTS_PROVIDER" := s.provider]["ARTIFACTS_BUCKET" := s.artifactBucket]
  }

  lemma CompletedIs(a: App, s: Settings)
    requires Splittable(a.name)
    ensures EntryCompleted(a, s, Completed(a, s))
  {
    CamelCaseIs(a.name);
    EnvIs(a, s);
    hide CamelCase, Joined, BuildWorkingDir, Splittable, EnvCompleted, InjectedEnv, ArchiveOf;
  }

  lemma EnvIs(a: App, s: Settings)
    ensures var own := if a.runtimeEnv.Some? then a.runtimeEnv.value else RuntimeEnv("", map[], None);
            var wd := BuildWorkingDir(s.client, ArchiveOf(a, s.version));
            EnvCompleted(a, s, own, RuntimeEnv(if own.workingDir == "" then wd else own.workingDir, own.envVars + InjectedEnv(a, s),
                                               if own.pip.None? then Some(DEFAULT_PIP) else own.pip))
  {
    WorkingDirText(s.client, ArchiveOf(a, s.version));
    hide BuildWorkingDir;
    var own := if a.runtimeEnv.Some? then a.runtimeEnv.value else RuntimeEnv("", map[], None);
    assert own.envVars + InjectedEnv(a, s) ==
             own.envVars["SERVICE_NAME" := s.serviceName]["SERVICE_INTERNAL_NAME" := s.serviceName]["USE_SYSTEM_PERMISSIONS" := "true"]
             ["APPLICATION_NAME" := a.name]["ARTIFACTS_PROVIDER" := s.provider]["ARTIFACTS_BUCKET" := s.artifactBucket];
  }

  lemma WorkingDirText(c: S3Client, file: string)
    ensures BuildWorkingDir(c, file) == "s3://" + c.bucket + "/" + (if c.prefix == "" then "" else c.prefix + "/") + file
  {
    if c.prefix == "" {
      assert "s3://" + c.bucket + "/" + "" == "s3://" + c.bucket + "/";
    } else {
      assert "s3://" + c.bucket + "/" + c.prefix + "/" == "s3://" + c.bucket + "/" + (c.prefix + "/");
    }
  }

  function CompletedAll(apps: seq<App>, s: Settings): seq<App>
    requires forall i :: 0 <= i < |apps| ==> Splittable(apps[i].name)
  {
    seq(|apps|, i requires 0 <= i < |apps| => Completed(apps[i], s))
  }

  // ---- the filter -----------------------------------------------------------------------------------------

  predicate Present(a: App, s: Settings) {
    ProbedKey(s.client, ArchiveOf(a, s.version)) in s.client.objects
  }

  predicate ProbeFails(a: App, s: Settings) {
    ProbedKey(s.client, ArchiveOf(a, s.version)) in s.client.broken
  }

  /** The functional filter the in-place loop amounts to. */
  function Kept(apps: seq<App>, s: Settings): (r: seq<App>)
    ensures |r| <= |apps|
    ensures forall a :: a in r ==> a in apps && Present(a, s)
  {
    if apps == [] then []
    else
      var last := apps[|apps| - 1];
      Kept(apps[..|apps| - 1], s) + (if Present(last, s) then [last] else [])
  }

  lemma NothingKept(s: Settings)
    ensures Kept([], s) == []
  {
  }

  lemma KeptOneMore(apps: seq<App>, s: Settings, i: nat)
    requires i < |apps|
    ensures Kept(apps[..i + 1], s) == Kept(apps[..i], s) + (if Present(apps[i], s) then [apps[i]] else [])
  {
    assert apps[..i + 1][..i] == apps[..i];
  }

  /** The filter keeps order and judges each entry on its own. */
  lemma {:induction false} KeptConcat(a: seq<App>, b: seq<App>, s: Settings)
    ensures Kept(a + b, s) == Kept(a, s) + Kept(b, s)
    decreases |b|
  {
    if b == [] {
      assert a + b == a;
    } else {
      var front := b[..|b| - 1];
      assert (a + b)[..|a + b| - 1] == a + front;
      KeptConcat(a, front, s);
    }
  }

  /** By whether the object of its archive is in the bucket. */
  lemma KeptAlone(a: App, s: Settings)
    ensures Kept([a], s) == if s.client.prefix + "/" + (a.name + "-" + s.version + ".zip") in s.client.objects then [a] else []
  {
    assert [a][..0] == [];
  }

  /** Walks the list while appending to a slice of length zero over the same array. */
  method FilterInPlace(apps: array<App>, s: Settings) returns (o: Outcome, kept: nat)
    modifies apps
    ensures o.Fail? <==> exists i :: 0 <= i < apps.Length && ProbeFails(old(apps[i]), s)
    ensures !o.Panic?
    ensures o.Ok? ==> kept <= apps.Length && apps[..kept] == Kept(old(apps[..]), s)
  {
    hide ProbedKey, ArchiveOf, Present, ProbeFails, Kept;
    assert Kept([], s) == [] by { NothingKept(s); }
    ghost var original := apps[..];
    kept := 0;
    for i := 0 to apps.Length
      invariant kept <= i
      invariant apps[..kept] == Kept(original[..i], s)
      // nothing ahead of the reader has been overwritten
      invariant apps[i..] == original[i..]
      invariant forall j :: 0 <= j < i ==> !ProbeFails(original[j], s)
    {
      var a := apps[i];
      assert a == apps[i..][0] == original[i];
      var exists_ := CheckExistence(a, s);
      if exists_.None? {
        return Fail("checking existence"), kept;
      }
      KeptOneMore(original, s, i);
      ghost var before := apps[..kept];
      if exists_.value {
        apps[kept] := a;
        kept := kept + 1;
        assert apps[..kept] == before + [a];
      }
      assert apps[i + 1..] == original[i + 1..] by {
        assert original[i + 1..] == original[i..][1..];
      }
    }
    assert original[..apps.Length] == original;
    return Ok, kept;
  }

  /** The storage call; None is an error other than a missing object. */
  method CheckExistence(a: App, s: Settings) returns (r: Option<bool>)
    ensures r.None? <==> ProbeFails(a, s)
    ensures r.Some? ==> r.value == Present(a, s)
  {
    var key := ProbedKey(s.client, ArchiveOf(a, s.version));
    if key in s.client.broken {
      return None;
    }
    return Some(key in s.client.objects);
  }

  // ---- the whole list ------------------------------------------------------------------------------------

  /** The entry at i, field by field. */
  method CompleteEntry(apps: array<App>, i: nat, s: Settings) returns (panicked: bool)
    requires i < apps.Length
    modifies apps
    ensures panicked <==> !Splittable(old(apps[i].name))
    ensures !panicked ==> Splittable(old(apps[i].name)) && apps[i] == Completed(old(apps[i]), s) && EntryCompleted(old(apps[i]), s, apps[i])
    ensures forall j :: 0 <= j < apps.Length && j != i ==> apps[j] == old(apps[j])
  {
    hide BuildWorkingDir, ArchiveOf, InjectedEnv, CamelCase, Splittable, Lower, EntryCompleted;
    ghost var a := apps[i];
    var wd := BuildWorkingDir(s.client, ArchiveOf(apps[i], s.version));
    var injected := InjectedEnv(apps[i], s);
    var appName := apps[i].name;
    if apps[i].importPath == "" {
      apps[i] := apps[i].(importPath := "main:create_serve_app");
    }
    if apps[i].routePrefix == "" {
      apps[i] := apps[i].(routePrefix := "/" + Lower(appName));
    }
    if apps[i].runtimeEnv.Some? {
      if apps[i].runtimeEnv.value.workingDir == "" {
        apps[i] := apps[i].(runtimeEnv := Some(apps[i].runtimeEnv.value.(workingDir := wd)));
      }
      var env := apps[i].runtimeEnv.value;
      apps[i] := apps[i].(runtimeEnv := Some(env.(envVars := env.envVars + injected)));
    } else {
      assert map[] + injected == injected;
      apps[i] := apps[i].(runtimeEnv := Some(RuntimeEnv(wd, injected, None)));
    }
    if apps[i].runtimeEnv.value.pip.None? {
      apps[i] := apps[i].(runtimeEnv := Some(apps[i].runtimeEnv.value.(pip := Some(DEFAULT_PIP))));
    }
    var camel;
    panicked, camel := ToCamelCase(apps[i].name);
    if !panicked {
      apps[i] := apps[i].(name := camel);
      CompletedIs(a, s);
    }
  }

  method CompleteInPlace(apps: array<App>, kept: nat, s: Settings) returns (panicked: bool)
    requires kept <= apps.Length
    modifies apps
    ensures panicked <==> exists i :: 0 <= i < kept && !Splittable(old(apps[i].name))
    ensures !panicked ==> (forall i :: 0 <= i < kept ==> Splittable(old(apps[i].name)))
                          && apps[..kept] == CompletedAll(old(apps[..kept]), s)
  {
    hide Completed, Splittable;
    ghost var original := apps[..];
    for i := 0 to kept
      invariant forall j :: 0 <= j < i ==> Splittable(original[j].name) && apps[j] == Completed(original[j], s)
      invariant forall j :: i <= j < apps.Length ==> apps[j] == original[j]
    {
      panicked := CompleteEntry(apps, i, s);
      if panicked {
        return;
      }
    }
    return false;
  }

  /** Filter, then complete: the applications the ConfigMap will list. */
  method ReconcileApplications(apps: array<App>, s: Settings) returns (o: Outcome, kept: nat)
    modifies apps
    ensures o.Fail? <==> exists i :: 0 <= i < apps.Length && ProbeFails(old(apps[i]), s)
    ensures o.Ok? ==>
              && kept <= apps.Length
              && (forall a :: a in Kept(old(apps[..]), s) ==> Splittable(a.name))
              && apps[..kept] == CompletedAll(Kept(old(apps[..]), s), s)
    ensures o.Panic? ==> exists a :: a in Kept(old(apps[..]), s) && DanglingUnderscore(a.name)
  {
    o, kept := FilterInPlace(apps, s);
    if !o.Ok? {
      return;
    }
    ghost var filtered := apps[..kept];
    var panicked := CompleteInPlace(apps, kept, s);
    if panicked {
      ghost var i :| 0 <= i < kept && !Splittable(filtered[i].name);
      SplittableIff(filtered[i].name);
      assert filtered[i] in filtered;
      return Panic, kept;
    }
    forall a | a in filtered ensures Splittable(a.name) {
      var i :| 0 <= i < kept && filtered[i] == a;
    }
  }

  /**
   * An application that is kept and set no working directory of its own gets the URI of exactly the
   * object whose existence was checked, unless the storage path's query or fragment begins right
   * behind the bucket: then, for every such application, the URI names another key.
   */
  lemma WorkingDirsExistIff(path: string, apps: seq<App>, s: Settings, i: nat)
    requires PathPattern(path) && PathPattern(Folder(path, APPLICATIONS)) && Locate(path).Some?
    requires Locate(Folder(path, APPLICATIONS)) == Some(Location(s.client.bucket, s.client.prefix))
    requires i < |Kept(apps, s)| && forall a :: a in Kept(apps, s) ==> Splittable(a.name)
    requires var a := Kept(apps, s)[i]; a.runtimeEnv.Some? ==> a.runtimeEnv.value.workingDir == ""
    ensures |path| >= 5
    ensures var a, done := Kept(apps, s)[i], CompletedAll(Kept(apps, s), s)[i];
            var key := ProbedKey(s.client, ArchiveOf(a, s.version));
            && key in s.client.objects
            && done.runtimeEnv.Some?
            && (done.runtimeEnv.value.workingDir == "s3://" + s.client.bucket + "/" + key <==> !StartsAtRoot(path))
  {
    hide Locate, PathPattern, StartsAtRoot, BuildWorkingDir, CamelCase, InjectedEnv, Lower;
    var a := Kept(apps, s)[i];
    assert a in Kept(apps, s);
    PrefixLostIff(path);
    WorkingDirProbedIff(s.client, ArchiveOf(a, s.version));
  }

  lemma RootQueryParts()
    ensures var path := "s3://b/?x";
            && PathPattern(path)
            && Before(path, {'#'}) == 9 && Before(path, {'?', '#'}) == 7 && Before(path[5..], {'/'}) == 1
  {
    var path := "s3://b/?x";
    CutIs(path[5..], {'/'}, 1);
    CutIs(path, {'#'}, 9);
    CutIs(path, {'?', '#'}, 7);
    assert path[5..][..1] == "b";
  }

  lemma RootQueryResolves()
    ensures Resolve(Parts("s3://b/?x", "", "b", "/")) == Some(Location("b", ""))
  {
    UnescapePlain("/");
  }

  lemma RootQuerySlices(path: string)
    requires path == "s3://b/?x"
    ensures |path| == 9 && path[..9] == path && path[5..6] == "b" && path[6..7] == "/" && path[9..] == "" && Swallows(path)
  {
    assert path[7] == '?';
  }

  lemma RootQueryLocated(path: string)
    requires path == "s3://b/?x"
    ensures PathPattern(path) && Locate(path) == Some(Location("b", "")) && Swallows(path)
  {
    hide PathPattern, Before, Resolve, PartsOf, Swallows;
    RootQueryParts();
    RootQuerySlices(path);
    PartsAre(path);
    RootQueryResolves();
  }

  /** Both webhook rules and the CRD pattern let such a path through. */
  lemma QueryAtRoot(path: string, region: string, objects: set<string>, file: string)
    requires path == "s3://b/?x" && region != ""
    ensures StorageValid(ObjectStorage(path, "", region, "")) && PathPattern(path) && PathPattern(Folder(path, APPLICATIONS))
    ensures Locate(Folder(path, APPLICATIONS)) == Some(Location("b", ""))
    ensures ProbedKey(S3Client("b", "", objects, {}), file) == "/" + file
    ensures BuildWorkingDir(S3Client("b", "", objects, {}), file) == "s3://b/" + file
  {
    hide PathPattern, Locate, Swallows, Folder;
    assert HasPrefix(path, STORAGE_PREFIXES[0]);
    RootQueryLocated(path);
    FoldersArePlain();
    FolderLocated(path, APPLICATIONS);
  }
}
