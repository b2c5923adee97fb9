/** The message gateway (`whatsappService`): address and media-path helpers, the
    missing-client guard shared by every send, and the profile-picture fallback. */
module WhatsApp {
  import opened Util
  import Telefone
  import opened Wire

  /** `DEFAULT_AVATAR_URL` */
  const DefaultAvatarUrl := "https://i.imgur.com/z28n3Nz.png"
  /** The message every send throws when there is no client. */
  const NotStarted := "Cliente WhatsApp não iniciado."
  /** What `path.basename(null)` throws. */
  const PathTypeError := "The \"path\" argument must be of type string. Received null"
  /** Stands for whatever error a client's rejected request carries. */
  const ClientRejected := "client request rejected"

  /** The chat address `${normalizeTelefone(telefone)}@c.us`; a number that does not
      normalise is interpolated as `null`. */
  function Address(telefone: Option<string>): (r: string)
    ensures Telefone.Normalize(telefone).Some? ==> r == Telefone.Normalize(telefone).value + "@c.us"
    ensures Telefone.Normalize(telefone).None? ==> r == "null@c.us"
  {
    match Telefone.Normalize(telefone)
    case Some(n) => n + "@c.us"
    case None => "null@c.us"
  }

  predicate IsUploadPath(u: string)
  {
    StartsWith(u, "/uploads/") || StartsWith(u, "uploads/")
  }

  /** The arguments of `path.join(__dirname, '..', '..', 'public', rest)` glued with '/';
      `path.join` skips an empty argument. */
  function PublicJoin(dirname: string, rest: string): string
  {
    (if dirname == [] then "" else dirname + "/") + "../../public/" + rest
  }

  /** `path.join(__dirname, '..', '..', 'public')`: the application's `public` directory. */
  function PublicDir(dirname: string): string
  {
    NormalizePath(PublicBase(dirname))
  }

  /** `resolveMediaPath`: an upload path, with one leading '/' dropped, is joined under the
      `public` directory two levels above `dirname` (the service's `__dirname`), and the
      joined path is normalised; anything else passes through. */
  function ResolveMediaPath(dirname: string, url: Option<string>): (r: Option<string>)
    ensures !Truthy(url) ==> r == url
    ensures Truthy(url) && !IsUploadPath(url.value) ==> r == url
    ensures Truthy(url) && IsUploadPath(url.value) ==>
      r == Some(NormalizePath(PublicJoin(dirname, if url.value[0] == '/' then url.value[1..] else url.value)))
    ensures Truthy(url) && IsUploadPath(url.value) ==> NormalizePath(r.value) == r.value
  {
    if !Truthy(url) then url
    else if IsUploadPath(url.value) then
      var joined := PublicJoin(dirname, if url.value[0] == '/' then url.value[1..] else url.value);
      NormalizeIdempotent(joined);
      Some(NormalizePath(joined))
    else url
  }

  // ---- POSIX paths: Node's `path.normalize` ----

  /** The pieces of `p` between its separators; a separator at either end, or two in a
      row, gives an empty piece. */
  function Split(p: string): (r: seq<string>)
    ensures |r| >= 1
    ensures forall i :: 0 <= i < |r| ==> '/' !in r[i]
  {
    if p == [] then [""]
    else
      var rest := Split(p[1..]);
      if p[0] == '/' then [""] + rest
      else
        assert forall i :: 1 <= i < |rest| ==> rest[i] == rest[1..][i - 1];
        [[p[0]] + rest[0]] + rest[1..]
  }

  /** A segment `path.normalize` keeps as it is. */
  predicate Plain(s: string)
  {
    s != "" && s != "." && s != ".." && '/' !in s
  }

  /** One segment of `normalizeString`: an empty piece and "." vanish; ".." drops the last
      kept segment unless that is itself "..", and is otherwise kept by a relative path and
      dropped at the root of an absolute one; any other segment is kept. */
  function StepSegment(stack: seq<string>, seg: string, absolute: bool): seq<string>
  {
    if seg == "" || seg == "." then stack
    else if seg == ".." then
      if stack != [] && stack[|stack| - 1] != ".." then stack[..|stack| - 1]
      else if absolute then stack
      else stack + [".."]
    else stack + [seg]
  }

  /** The segments kept after reading `segs` from left to right. */
  function Resolve(stack: seq<string>, segs: seq<string>, absolute: bool): seq<string>
    decreases |segs|
  {
    if segs == [] then stack else Resolve(StepSegment(stack, segs[0], absolute), segs[1..], absolute)
  }

  function JoinSegments(ss: seq<string>): string
  {
    if ss == [] then ""
    else if |ss| == 1 then ss[0]
    else JoinSegments(ss[..|ss| - 1]) + "/" + ss[|ss| - 1]
  }

  /** `path.normalize` (POSIX): the resolved segments, with the path's leading and trailing
      separator kept; an empty result is "/", "./" or ".". */
  function NormalizePath(p: string): (r: string)
    ensures r != []
  {
    var absolute := p != [] && p[0] == '/';
    var trailing := p != [] && p[|p| - 1] == '/';
    var body := JoinSegments(Resolve([], Split(p), absolute));
    if body == [] then (if absolute then "/" else if trailing then "./" else ".")
    else (if absolute then "/" else "") + body + (if trailing then "/" else "")
  }

  /** A stack `Resolve` can produce: plain segments after a run of ".." that only a relative
      path keeps. */
  predicate Resolved(st: seq<string>, absolute: bool)
  {
    forall i :: 0 <= i < |st| ==>
      Plain(st[i]) || (!absolute && st[i] == ".." && forall j :: 0 <= j < i ==> st[j] == "..")
  }

  lemma {:induction false} SplitJoin(a: string, b: string)
    ensures Split(a + "/" + b) == Split(a) + Split(b)
    decreases |a|
  {
    if a != [] {
      assert (a + "/" + b)[1..] == a[1..] + "/" + b;
      SplitJoin(a[1..], b);
    }
  }

  lemma {:induction false} SplitPiece(s: string)
    requires '/' !in s
    ensures Split(s) == [s]
    decreases |s|
  {
    if s != [] {
      SplitPiece(s[1..]);
      assert [s[0]] + s[1..] == s;
    }
  }

  lemma {:induction false} ResolveAppend(st: seq<string>, a: seq<string>, b: seq<string>, absolute: bool)
    ensures Resolve(st, a + b, absolute) == Resolve(Resolve(st, a, absolute), b, absolute)
    decreases |a|
  {
    if a != [] {
      assert (a + b)[0] == a[0] && (a + b)[1..] == a[1..] + b;
      ResolveAppend(StepSegment(st, a[0], absolute), a[1..], b, absolute);
    } else {
      assert a + b == b;
    }
  }

  /** A plain segment is appended. */
  lemma ResolvePlain(st: seq<string>, a: seq<string>, seg: string, absolute: bool)
    requires Plain(seg)
    ensures Resolve(st, a + [seg], absolute) == Resolve(st, a, absolute) + [seg]
  {
    ResolveAppend(st, a, [seg], absolute);
  }

  lemma {:induction false} ResolveKeepsResolved(st: seq<string>, segs: seq<string>, absolute: bool)
    requires Resolved(st, absolute)
    requires forall i :: 0 <= i < |segs| ==> '/' !in segs[i]
    ensures Resolved(Resolve(st, segs, absolute), absolute)
    decreases |segs|
  {
    if segs != [] {
      var st1 := StepSegment(st, segs[0], absolute);
      assert Resolved(st1, absolute) by {
        if segs[0] == ".." && st != [] && st[|st| - 1] == ".." && !absolute {
          assert forall j :: 0 <= j < |st| ==> st[j] == "..";
        }
      }
      ResolveKeepsResolved(st1, segs[1..], absolute);
    }
  }

  /** Reading a resolved stack again reproduces it. */
  lemma {:induction false} ResolveResolved(prefix: seq<string>, rest: seq<string>, absolute: bool)
    requires Resolved(prefix + rest, absolute)
    ensures Resolve(prefix, rest, absolute) == prefix + rest
    decreases |rest|
  {
    if rest != [] {
      var all := prefix + rest;
      assert all[|prefix|] == rest[0];
      if rest[0] == ".." && prefix != [] {
        assert all[|prefix| - 1] == prefix[|prefix| - 1];
      }
      assert StepSegment(prefix, rest[0], absolute) == prefix + [rest[0]];
      assert prefix + [rest[0]] + rest[1..] == all;
      ResolveResolved(prefix + [rest[0]], rest[1..], absolute);
    }
  }

  /** Joined segments split back into themselves. */
  lemma {:induction false} SplitJoinSegments(ss: seq<string>)
    requires ss != [] && forall i :: 0 <= i < |ss| ==> '/' !in ss[i]
    ensures Split(JoinSegments(ss)) == ss
    decreases |ss|
  {
    var n := |ss|;
    if n == 1 {
      SplitPiece(ss[0]);
    } else {
      SplitJoinSegments(ss[..n - 1]);
      SplitJoin(JoinSegments(ss[..n - 1]), ss[n - 1]);
      SplitPiece(ss[n - 1]);
      assert ss[..n - 1] + [ss[n - 1]] == ss;
    }
  }

  /** Joined non-empty segments start with the first and end with the last one's characters. */
  lemma {:induction false} JoinSegmentsEnds(ss: seq<string>)
    requires ss != [] && forall i :: 0 <= i < |ss| ==> ss[i] != []
    ensures var j := JoinSegments(ss); j != [] && j[0] == ss[0][0] && j[|j| - 1] == ss[|ss| - 1][|ss[|ss| - 1]| - 1]
    decreases |ss|
  {
    if |ss| > 1 {
      JoinSegmentsEnds(ss[..|ss| - 1]);
    }
  }

  /** `path.normalize` is idempotent: a normalised path is its own normal form. */
  lemma NormalizeIdempotent(p: string)
    ensures NormalizePath(NormalizePath(p)) == NormalizePath(p)
  {
    var absolute := p != [] && p[0] == '/';
    var trailing := p != [] && p[|p| - 1] == '/';
    var st := Resolve([], Split(p), absolute);
    ResolveKeepsResolved([], Split(p), absolute);
    StackJoinsNonEmpty(Split(p), absolute);
    var r := NormalizePath(p);
    if st == [] {
      NormalFormsOfNothing();
    } else {
      assert p != [];
      NormalizeShape(p, st);
      Renormalize(r, st, absolute, trailing);
    }
  }

  /** The three normal forms of a path that resolves to no segment. */
  lemma NormalFormsOfNothing()
    ensures NormalizePath("/") == "/" && NormalizePath("./") == "./" && NormalizePath(".") == "."
  {
    assert "/"[1..] == [] && "./"[1..] == "/" && "."[1..] == [];
    assert Split("/") == ["", ""];
    assert ['.'] + "" == ".";
    assert Split("./") == [".", ""] by {
      assert "./"[0] == '.';
      var rest := Split("/");
      assert rest[0] == "" && rest[1..] == [""];
    }
    assert Split(".") == ["."] by {
      assert "."[0] == '.';
      var rest := Split("");
      assert rest[0] == "" && rest[1..] == [];
    }
  }

  /** A path formed from resolved segments, with its leading and trailing separators, is
      its own normal form. */
  lemma Renormalize(r: string, st: seq<string>, absolute: bool, trailing: bool)
    requires st != [] && Resolved(st, absolute)
    requires r == (if absolute then "/" else "") + JoinSegments(st) + (if trailing then "/" else "")
    ensures NormalizePath(r) == r
  {
    var pre: seq<string> := if absolute then [""] else [];
    var post: seq<string> := if trailing then [""] else [];
    RenormalizedSplit(r, st, absolute, trailing);
    RenormalizedResolve(st, absolute, trailing);
    RenormalizedShape(r, st, absolute, trailing);
  }

  lemma RenormalizedSplit(r: string, st: seq<string>, absolute: bool, trailing: bool)
    requires st != [] && Resolved(st, absolute)
    requires r == (if absolute then "/" else "") + JoinSegments(st) + (if trailing then "/" else "")
    ensures Split(r) == (if absolute then [""] else []) + st + (if trailing then [""] else [])
    ensures r != [] && (r[0] == '/') == absolute && (r[|r| - 1] == '/') == trailing
  {
    var body := JoinSegments(st);
    ResolvedBody(st, absolute, body);
    FramedSplit(body, st, absolute, trailing, r);
    FramedEnds(body, absolute, trailing, r);
  }

  /** Resolved segments join into a path that splits back into them and has no separator
      at either end. */
  lemma ResolvedBody(st: seq<string>, absolute: bool, body: string)
    requires st != [] && Resolved(st, absolute) && body == JoinSegments(st)
    ensures Split(body) == st && body != [] && body[0] != '/' && body[|body| - 1] != '/'
  {
    assert forall i :: 0 <= i < |st| ==> st[i] != [] && '/' !in st[i];
    JoinSegmentsEnds(st);
    SplitJoinSegments(st);
    var first, last := st[0], st[|st| - 1];
    assert body[0] in first && body[|body| - 1] in last;
  }

  lemma FramedSplit(body: string, st: seq<string>, absolute: bool, trailing: bool, r: string)
    requires Split(body) == st
    requires r == (if absolute then "/" else "") + body + (if trailing then "/" else "")
    ensures Split(r) == (if absolute then [""] else []) + st + (if trailing then [""] else [])
  {
    var bt := body + (if trailing then "/" else "");
    assert r == (if absolute then "/" else "") + bt;
    FrameTrailing(body, trailing, bt);
    FrameLeading(bt, absolute, r);
  }

  lemma FrameTrailing(body: string, trailing: bool, bt: string)
    requires bt == body + (if trailing then "/" else "")
    ensures Split(bt) == Split(body) + (if trailing then [""] else [])
  {
    if trailing {
      SplitTrailing(body, bt);
    } else {
      assert bt == body;
    }
  }

  lemma FrameLeading(bt: string, absolute: bool, r: string)
    requires r == (if absolute then "/" else "") + bt
    ensures Split(r) == (if absolute then [""] else []) + Split(bt)
  {
    if absolute {
      SplitLeading(bt, r);
    } else {
      assert r == bt;
    }
  }

  lemma SplitTrailing(body: string, bt: string)
    requires bt == body + "/"
    ensures Split(bt) == Split(body) + [""]
  {
    assert bt == body + "/" + "";
    SplitJoin(body, "");
  }

  lemma SplitLeading(bt: string, r: string)
    requires r == "/" + bt
    ensures Split(r) == [""] + Split(bt)
  {
    assert r == "" + "/" + bt;
    SplitJoin("", bt);
  }

  lemma FramedEnds(body: string, absolute: bool, trailing: bool, r: string)
    requires body != [] && body[0] != '/' && body[|body| - 1] != '/'
    requires r == (if absolute then "/" else "") + body + (if trailing then "/" else "")
    ensures r != [] && (r[0] == '/') == absolute && (r[|r| - 1] == '/') == trailing
  {
  }

  lemma RenormalizedResolve(st: seq<string>, absolute: bool, trailing: bool)
    requires Resolved(st, absolute)
    ensures Resolve([], (if absolute then [""] else []) + st + (if trailing then [""] else []), absolute) == st
  {
    var pre: seq<string> := if absolute then [""] else [];
    var post: seq<string> := if trailing then [""] else [];
    ResolveAppend([], pre + st, post, absolute);
    ResolveAppend([], pre, st, absolute);
    ResolveResolved([], st, absolute);
    assert [] + st == st;
  }

  lemma RenormalizedShape(r: string, st: seq<string>, absolute: bool, trailing: bool)
    requires st != [] && r != [] && (r[0] == '/') == absolute && (r[|r| - 1] == '/') == trailing
    requires Resolve([], Split(r), absolute) == st
    requires r == (if absolute then "/" else "") + JoinSegments(st) + (if trailing then "/" else "")
    requires JoinSegments(st) != []
    ensures NormalizePath(r) == r
  {
    NormalizeShape(r, st);
  }

  /** The shape of `path.normalize` on a path whose resolved segments are not empty. */
  lemma NormalizeShape(p: string, st: seq<string>)
    requires p != [] && st == Resolve([], Split(p), p[0] == '/') && JoinSegments(st) != []
    ensures NormalizePath(p) == (if p[0] == '/' then "/" else "") + JoinSegments(st) + (if p[|p| - 1] == '/' then "/" else "")
  {
  }

  /** A path whose resolved segments extend those of `pre` by `jt` normalises to the normal
      form of `pre` extended by `jt`. */
  lemma NormalizeAppended(pre: string, full: string, s0: seq<string>, s1: seq<string>, jt: string)
    requires pre != [] && full != [] && full[0] == pre[0]
    requires pre[|pre| - 1] != '/' && full[|full| - 1] != '/'
    requires s0 == Resolve([], Split(pre), pre[0] == '/') && s1 == Resolve([], Split(full), pre[0] == '/')
    requires JoinSegments(s0) != [] && JoinSegments(s1) == JoinSegments(s0) + "/" + jt
    ensures NormalizePath(full) == NormalizePath(pre) + "/" + jt
  {
    NormalizeUnslashed(pre, s0);
    NormalizeUnslashed(full, s1);
    var lead := if pre[0] == '/' then "/" else "";
    Regroup(NormalizePath(pre), NormalizePath(full), lead, JoinSegments(s0), JoinSegments(s1), jt);
  }

  /** The normal form of a path that does not end in a separator. */
  lemma NormalizeUnslashed(p: string, st: seq<string>)
    requires p != [] && p[|p| - 1] != '/'
    requires st == Resolve([], Split(p), p[0] == '/') && JoinSegments(st) != []
    ensures NormalizePath(p) == (if p[0] == '/' then "/" else "") + JoinSegments(st)
  {
  }

  lemma Regroup(n0: string, n1: string, lead: string, j0: string, j1: string, jt: string)
    requires n0 == lead + j0 && n1 == lead + j1 && j1 == j0 + "/" + jt
    ensures n1 == n0 + "/" + jt
  {
  }

  lemma ResolveExtend(segs: seq<string>, tail: seq<string>, absolute: bool)
    requires forall i :: 0 <= i < |tail| ==> Plain(tail[i])
    ensures Resolve([], segs + tail, absolute) == Resolve([], segs, absolute) + tail
  {
    ResolveAppend([], segs, tail, absolute);
    PlainAppended(Resolve([], segs, absolute), tail, absolute);
  }

  /** What `Resolve` keeps joins into a non-empty path when it keeps anything. */
  lemma StackJoinsNonEmpty(segs: seq<string>, absolute: bool)
    requires forall i :: 0 <= i < |segs| ==> '/' !in segs[i]
    ensures var st := Resolve([], segs, absolute);
      (forall i :: 0 <= i < |st| ==> st[i] != []) && (st != [] ==> JoinSegments(st) != [])
  {
    var st := Resolve([], segs, absolute);
    ResolveKeepsResolved([], segs, absolute);
    assert forall i :: 0 <= i < |st| ==> st[i] != [];
    if st != [] {
      JoinSegmentsEnds(st);
    }
  }

  /** The joined path before `rest`: `__dirname/../../public`. */
  function PublicBase(dirname: string): string
  {
    (if dirname == [] then "" else dirname + "/") + "../../public"
  }

  /** `__dirname/../../public` ends in the segment `public`, so it resolves to something. */
  lemma PublicStack(dirname: string)
    ensures var pre := PublicBase(dirname);
      && pre != [] && pre[|pre| - 1] == 'c' && Resolve([], Split(pre), pre[0] == '/') != []
  {
    var pre := PublicBase(dirname);
    var p0 := (if dirname == [] then "" else dirname + "/") + "../..";
    assert pre == p0 + "/" + "public";
    SplitJoin(p0, "public");
    SplitPiece("public");
    ResolvePlain([], Split(p0), "public", pre[0] == '/');
  }

  /** `/uploads/<name>` with a plain file name resolves to `<public>/uploads/<name>`. */
  lemma ResolveUploadPath(dirname: string, name: string)
    requires Plain(name)
    ensures ResolveMediaPath(dirname, Some("/uploads/" + name)) == Some(PublicDir(dirname) + "/uploads/" + name)
  {
    var url := "/uploads/" + name;
    assert url[0] == '/' && StartsWith(url, "/uploads/") && url[1..] == "uploads/" + name;
    UploadNormalForm(dirname, name);
    ResolvesAbsoluteUpload(dirname, url, PublicDir(dirname) + "/uploads/" + name);
  }

  lemma UploadNormalForm(dirname: string, name: string)
    requires Plain(name)
    ensures NormalizePath(PublicJoin(dirname, "uploads/" + name)) == PublicDir(dirname) + "/uploads/" + name
  {
    var pre := PublicBase(dirname);
    var full := PublicJoin(dirname, "uploads/" + name);
    UploadJoin(dirname, name, full);
    PublicStack(dirname);
    ChildSplits(pre, "uploads", name, full);
    ChildNormalizes(pre, "uploads", name, "uploads/" + name, full);
    UploadRegroup(NormalizePath(pre), name, NormalizePath(full));
  }

  lemma UploadJoin(dirname: string, name: string, full: string)
    requires full == PublicJoin(dirname, "uploads/" + name)
    ensures full == PublicBase(dirname) + "/" + "uploads" + "/" + name
  {
  }

  lemma UploadRegroup(n: string, name: string, r: string)
    requires r == n + "/" + ("uploads/" + name)
    ensures r == n + "/uploads/" + name
  {
  }

  /** `<pre>/<dir>/<name>` splits into the segments of `<pre>` followed by `dir` and `name`. */
  lemma ChildSplits(pre: string, dir: string, name: string, full: string)
    requires pre != [] && Plain(dir) && Plain(name) && full == pre + "/" + dir + "/" + name
    ensures Split(full) == Split(pre) + [dir, name]
    ensures full[0] == pre[0] && full[|full| - 1] != '/'
  {
    ChildSegments(pre, dir, name, full);
    ChildEnds(pre, dir, name, full);
  }

  lemma ChildSegments(pre: string, dir: string, name: string, full: string)
    requires '/' !in dir && '/' !in name && full == pre + "/" + dir + "/" + name
    ensures Split(full) == Split(pre) + [dir, name]
  {
    var a1 := pre + "/" + dir;
    SplitSnoc(pre, dir, a1);
    SplitSnoc(a1, name, full);
  }

  lemma ChildEnds(pre: string, dir: string, name: string, full: string)
    requires pre != [] && name != [] && '/' !in name && full == pre + "/" + dir + "/" + name
    ensures full[0] == pre[0] && full[|full| - 1] != '/'
  {
    assert full[|full| - 1] == name[|name| - 1];
  }


  lemma ChildNormalizes(pre: string, dir: string, name: string, jt: string, full: string)
    requires pre != [] && pre[|pre| - 1] != '/' && Resolve([], Split(pre), pre[0] == '/') != []
    requires Plain(dir) && Plain(name) && jt == dir + "/" + name
    requires full != [] && Split(full) == Split(pre) + [dir, name]
    requires full[0] == pre[0] && full[|full| - 1] != '/'
    ensures NormalizePath(full) == NormalizePath(pre) + "/" + jt
  {
    var absolute := pre[0] == '/';
    var segs := Split(pre);
    var s0 := Resolve([], segs, absolute);
    ResolveExtend(segs, [dir, name], absolute);
    StackJoinsNonEmpty(segs, absolute);
    ChildJoins(s0, dir, name, jt);
    NormalizeAppended(pre, full, s0, s0 + [dir, name], jt);
  }

  lemma ChildJoins(s0: seq<string>, dir: string, name: string, jt: string)
    requires s0 != [] && jt == dir + "/" + name
    ensures JoinSegments(s0 + [dir, name]) == JoinSegments(s0) + "/" + jt
  {
    var tail := [dir, name];
    assert JoinSegments(tail) == jt by {
      assert tail[..1] == [dir];
    }
    JoinAppend(s0, tail);
  }

  /** `/uploads/<name>/..` collapses to the uploads directory itself, which is then the
      basename. */
  lemma ParentSegmentCollapses(dirname: string, name: string)
    requires Plain(name)
    ensures ResolveMediaPath(dirname, Some("/uploads/" + name + "/..")) == Some(PublicDir(dirname) + "/uploads")
    ensures Basename(PublicDir(dirname) + "/uploads") == "uploads"
  {
    var url := "/uploads/" + name + "/..";
    assert url[0] == '/' && StartsWith(url, "/uploads/") && url[1..] == "uploads/" + name + "/..";
    ParentNormalForm(dirname, name);
    ResolvesAbsoluteUpload(dirname, url, PublicDir(dirname) + "/uploads");
    UploadsBasename(PublicDir(dirname));
  }

  /** An absolute upload URL resolves to the normal form of its join under `public`. */
  lemma ResolvesAbsoluteUpload(dirname: string, url: string, r: string)
    requires url != [] && url[0] == '/' && IsUploadPath(url)
    requires NormalizePath(PublicJoin(dirname, url[1..])) == r
    ensures ResolveMediaPath(dirname, Some(url)) == Some(r)
  {
  }

  lemma UploadsBasename(dir: string)
    ensures Basename(dir + "/uploads") == "uploads"
  {
    assert dir + "/uploads" == dir + "/" + "uploads";
    BasenameOfJoin(dir, "uploads");
  }

  lemma ParentNormalForm(dirname: string, name: string)
    requires Plain(name)
    ensures NormalizePath(PublicJoin(dirname, "uploads/" + name + "/..")) == PublicDir(dirname) + "/uploads"
  {
    var pre := PublicBase(dirname);
    var full := PublicJoin(dirname, "uploads/" + name + "/..");
    assert full == pre + "/" + "uploads" + "/" + name + "/" + "..";
    PublicStack(dirname);
    ParentOfPlain(pre, "uploads", name, "..", full);
  }

  /** `<pre>/<dir>/<name>/..` normalises to the normal form of `<pre>` with `/<dir>`
      appended. */
  lemma ParentOfPlain(pre: string, dir: string, name: string, up: string, full: string)
    requires pre != [] && pre[|pre| - 1] != '/' && Resolve([], Split(pre), pre[0] == '/') != []
    requires Plain(dir) && Plain(name) && up == ".." && full == pre + "/" + dir + "/" + name + "/" + up
    ensures NormalizePath(full) == NormalizePath(pre) + "/" + dir
  {
    var absolute := pre[0] == '/';
    var segs := Split(pre);
    var s0 := Resolve([], segs, absolute);
    ParentSplits(pre, dir, name, up, full);
    assert full[0] == pre[0] && full[|full| - 1] == '.';
    ParentResolves(segs, dir, name, up, absolute);
    StackJoinsNonEmpty(segs, absolute);
    JoinAppend(s0, [dir]);
    NormalizeAppended(pre, full, s0, s0 + [dir], dir);
  }

  lemma ParentSplits(pre: string, dir: string, name: string, up: string, full: string)
    requires '/' !in dir && '/' !in name && '/' !in up && full == pre + "/" + dir + "/" + name + "/" + up
    ensures Split(full) == Split(pre) + [dir, name, up]
  {
    var a1 := pre + "/" + dir;
    var a2 := a1 + "/" + name;
    SplitSnoc(pre, dir, a1);
    SplitSnoc(a1, name, a2);
    SplitSnoc(a2, up, full);
  }

  lemma SplitSnoc(a: string, b: string, full: string)
    requires '/' !in b && full == a + "/" + b
    ensures Split(full) == Split(a) + [b]
  {
    SplitJoin(a, b);
    SplitPiece(b);
  }

  lemma ParentResolves(segs: seq<string>, dir: string, name: string, up: string, absolute: bool)
    requires Plain(dir) && Plain(name) && up == ".."
    ensures Resolve([], segs + [dir, name, up], absolute) == Resolve([], segs, absolute) + [dir]
  {
    var s0 := Resolve([], segs, absolute);
    ResolveAppend([], segs + [dir, name], [up], absolute);
    ResolveAppend([], segs, [dir, name], absolute);
    assert segs + [dir, name, up] == segs + [dir, name] + [up];
    PlainAppended(s0, [dir, name], absolute);
    assert StepSegment(s0 + [dir, name], up, absolute) == s0 + [dir];
  }

  lemma {:induction false} PlainAppended(st: seq<string>, tail: seq<string>, absolute: bool)
    requires forall i :: 0 <= i < |tail| ==> Plain(tail[i])
    ensures Resolve(st, tail, absolute) == st + tail
    decreases |tail|
  {
    if tail != [] {
      PlainAppended(st + [tail[0]], tail[1..], absolute);
      assert st + [tail[0]] + tail[1..] == st + tail;
    }
  }

  lemma {:induction false} JoinAppend(st: seq<string>, tail: seq<string>)
    requires st != [] && tail != []
    ensures JoinSegments(st + tail) == JoinSegments(st) + "/" + JoinSegments(tail)
    decreases |tail|
  {
    var n := |tail|;
    if n == 1 {
      assert (st + tail)[..|st + tail| - 1] == st;
    } else {
      assert (st + tail)[..|st + tail| - 1] == st + tail[..n - 1];
      JoinAppend(st, tail[..n - 1]);
    }
  }

  function TrimTrailingSlashes(s: string): (r: string)
    ensures r == [] || r[|r| - 1] != '/'
    ensures |r| <= |s| && r == s[..|r|]
  {
    if s != [] && s[|s| - 1] == '/' then TrimTrailingSlashes(s[..|s| - 1]) else s
  }

  /** The text after the last '/' of `s`. */
  function AfterLastSlash(s: string): (r: string)
    ensures forall i :: 0 <= i < |r| ==> r[i] != '/'
    ensures |r| <= |s| && r == s[|s| - |r|..]
  {
    if s == [] || s[|s| - 1] == '/' then [] else AfterLastSlash(s[..|s| - 1]) + [s[|s| - 1]]
  }

  /** `path.basename` (POSIX): trailing separators are ignored, then the last segment is kept. */
  function Basename(p: string): (r: string)
    ensures forall i :: 0 <= i < |r| ==> r[i] != '/'
  {
    AfterLastSlash(TrimTrailingSlashes(p))
  }

  /** A segment with no '/' is the basename of any path that ends with it after a '/'. */
  lemma {:induction false} BasenameOfJoin(dir: string, name: string)
    requires name != [] && forall i :: 0 <= i < |name| ==> name[i] != '/'
    ensures Basename(dir + "/" + name) == name
    decreases |name|
  {
    var p := dir + "/" + name;
    assert TrimTrailingSlashes(p) == p;
    AfterLastSlashOfJoin(dir, name);
  }

  lemma {:induction false} AfterLastSlashOfJoin(dir: string, name: string)
    requires forall i :: 0 <= i < |name| ==> name[i] != '/'
    ensures AfterLastSlash(dir + "/" + name) == name
    decreases |name|
  {
    var p := dir + "/" + name;
    if name == [] {
      assert p[|p| - 1] == '/';
    } else {
      var init := name[..|name| - 1];
      assert p[..|p| - 1] == dir + "/" + init;
      AfterLastSlashOfJoin(dir, init);
      assert init + [name[|name| - 1]] == name;
    }
  }

  function TextRequest(telefone: Option<string>, mensagem: string): Request
  {
    SendText(Address(telefone), mensagem)
  }

  /** The request of `sendImage`, or `None` when the path is null and `path.basename` throws. */
  function ImageRequest(dirname: string, telefone: Option<string>, imageUrl: Option<string>, caption: string): (r: Option<Request>)
    ensures r.None? <==> imageUrl.None?
  {
    var filePath := ResolveMediaPath(dirname, imageUrl);
    if filePath.None? then None
    else Some(SendImage(Address(telefone), filePath, Some(Basename(filePath.value)), caption))
  }

  /** The request of `sendAudio`: the path goes through unchecked, null included. */
  function VoiceRequest(dirname: string, telefone: Option<string>, audioUrl: Option<string>): Request
  {
    SendVoice(Address(telefone), ResolveMediaPath(dirname, audioUrl))
  }

  /** The request of `sendFile`: path and name go through unchecked. */
  function FileRequest(dirname: string, telefone: Option<string>, fileUrl: Option<string>,
                       fileName: Option<string>, caption: string): Request
  {
    SendFile(Address(telefone), ResolveMediaPath(dirname, fileUrl), fileName, caption)
  }

  /** The request of `sendVideo`: a `sendFile` named by the path's basename, or `None`
      when the path is null. */
  function VideoRequest(dirname: string, telefone: Option<string>, videoUrl: Option<string>, caption: string): (r: Option<Request>)
    ensures r.None? <==> videoUrl.None?
    ensures r.Some? ==> r.value.SendFile?
  {
    var filePath := ResolveMediaPath(dirname, videoUrl);
    if filePath.None? then None
    else Some(SendFile(Address(telefone), filePath, Some(Basename(filePath.value)), caption))
  }

  /** What one send does to the trace: its outcome and the events it appends. */
  datatype Attempt = Attempt(outcome: Outcome, emitted: seq<Event>)

  /** A send: the missing client is refused first, then a request that could not be
      built, then whatever the client itself rejects. */
  function Deliver(refuses: (nat, Request) -> bool, client: Option<nat>, req: Option<Request>): (a: Attempt)
    ensures client.None? ==> a == Attempt(Fail(NotStarted), [])
    ensures a.outcome.Pass? <==> client.Some? && req.Some? && !refuses(client.value, req.value)
    ensures a.outcome.Pass? ==> a.emitted == [Call(client.value, req.value)]
    ensures a.outcome.Fail? ==> a.emitted == []
  {
    if client.None? then Attempt(Fail(NotStarted), [])
    else if req.None? then Attempt(Fail(PathTypeError), [])
    else if refuses(client.value, req.value) then Attempt(Fail(ClientRejected), [])
    else Attempt(Pass, [Call(client.value, req.value)])
  }

  /** The one place a client is called. */
  method Send(out: Outbox, client: Option<nat>, req: Option<Request>) returns (r: Outcome)
    modifies out
    ensures r == Deliver(out.refuses, client, req).outcome
    ensures out.events == old(out.events) + Deliver(out.refuses, client, req).emitted
  {
    var a := Deliver(out.refuses, client, req);
    out.events := out.events + a.emitted;
    return a.outcome;
  }

  /** `enviarMensagem` */
  method EnviarMensagem(out: Outbox, client: Option<nat>, telefone: Option<string>, mensagem: string) returns (r: Outcome)
    modifies out
    ensures var a := Deliver(out.refuses, client, Some(TextRequest(telefone, mensagem)));
      r == a.outcome && out.events == old(out.events) + a.emitted
  {
    r := Send(out, client, Some(TextRequest(telefone, mensagem)));
  }

  /** `sendImage` */
  method SendImageTo(out: Outbox, dirname: string, client: Option<nat>, telefone: Option<string>,
                     imageUrl: Option<string>, caption: string) returns (r: Outcome)
    modifies out
    ensures var a := Deliver(out.refuses, client, ImageRequest(dirname, telefone, imageUrl, caption));
      r == a.outcome && out.events == old(out.events) + a.emitted
  {
    r := Send(out, client, ImageRequest(dirname, telefone, imageUrl, caption));
  }

  /** `sendAudio` */
  method SendAudio(out: Outbox, dirname: string, client: Option<nat>, telefone: Option<string>,
                   audioUrl: Option<string>) returns (r: Outcome)
    modifies out
    ensures var a := Deliver(out.refuses, client, Some(VoiceRequest(dirname, telefone, audioUrl)));
      r == a.outcome && out.events == old(out.events) + a.emitted
  {
    r := Send(out, client, Some(VoiceRequest(dirname, telefone, audioUrl)));
  }

  /** `sendFile` */
  method SendFileTo(out: Outbox, dirname: string, client: Option<nat>, telefone: Option<string>,
                    fileUrl: Option<string>, fileName: Option<string>, caption: string) returns (r: Outcome)
    modifies out
    ensures var a := Deliver(out.refuses, client, Some(FileRequest(dirname, telefone, fileUrl, fileName, caption)));
      r == a.outcome && out.events == old(out.events) + a.emitted
  {
    r := Send(out, client, Some(FileRequest(dirname, telefone, fileUrl, fileName, caption)));
  }

  /** `sendVideo` */
  method SendVideo(out: Outbox, dirname: string, client: Option<nat>, telefone: Option<string>,
                   videoUrl: Option<string>, caption: string) returns (r: Outcome)
    modifies out
    ensures var a := Deliver(out.refuses, client, VideoRequest(dirname, telefone, videoUrl, caption));
      r == a.outcome && out.events == old(out.events) + a.emitted
  {
    r := Send(out, client, VideoRequest(dirname, telefone, videoUrl, caption));
  }

  /** What `client.getProfilePicFromServer(wid)` does. */
  datatype Lookup = Found(url: Option<string>) | Threw

  /** `getProfilePicUrl`: the server's picture when there is a client, a number that
      normalises and a truthy answer; the default avatar in every other case. */
  function ProfilePicUrl(client: Option<nat>, telefone: Option<string>, server: (nat, string) -> Lookup): (r: string)
    ensures r != DefaultAvatarUrl ==> client.Some? && Telefone.Normalize(telefone).Some?
    ensures (client.Some? && Telefone.Normalize(telefone).Some?
             && server(client.value, Address(telefone)).Found?
             && Truthy(server(client.value, Address(telefone)).url))
            ==> r == server(client.value, Address(telefone)).url.value
    ensures !(client.Some? && Telefone.Normalize(telefone).Some?
             && server(client.value, Address(telefone)).Found?
             && Truthy(server(client.value, Address(telefone)).url))
            ==> r == DefaultAvatarUrl
  {
    if client.None? || !Truthy(telefone) then DefaultAvatarUrl
    else
      match Telefone.Normalize(telefone)
      case None => DefaultAvatarUrl
      case Some(numero) =>
        match server(client.value, numero + "@c.us")
        case Threw => DefaultAvatarUrl
        case Found(url) => OrElse(url, DefaultAvatarUrl)
  }

  /** The unit test's number '11987654321' is addressed as '5511987654321@c.us'. */
  lemma AddressExample(phone: string, canonical: string, address: string)
    requires phone == "11987654321" && canonical == "5511987654321" && address == canonical + "@c.us"
    ensures Address(Some(phone)) == address
  {
    Telefone.BareAndCanonicalExamples(phone, canonical);
  }

  /** An image under '/uploads/' is sent from the public directory, named by its file name. */
  lemma ImageFromUploads(dirname: string, telefone: Option<string>, name: string, caption: string)
    requires Plain(name)
    ensures ImageRequest(dirname, telefone, Some("/uploads/" + name), caption)
         == Some(SendImage(Address(telefone), Some(PublicDir(dirname) + "/uploads/" + name), Some(name), caption))
  {
    ResolveUploadPath(dirname, name);
    assert PublicDir(dirname) + "/uploads/" + name == (PublicDir(dirname) + "/uploads") + "/" + name;
    BasenameOfJoin(PublicDir(dirname) + "/uploads", name);
  }

  /** The unit test of `sendImage`: '/uploads/test.png' resolves under the public
      directory and is sent with its file name 'test.png'. */
  lemma ImageExample(dirname: string, phone: string, canonical: string, address: string, name: string)
    requires phone == "11987654321" && canonical == "5511987654321" && address == canonical + "@c.us"
    requires name == "test.png"
    ensures ImageRequest(dirname, Some(phone), Some("/uploads/" + name), "hello")
         == Some(SendImage(address, Some(PublicDir(dirname) + "/uploads/" + name), Some(name), "hello"))
  {
    AddressExample(phone, canonical, address);
    assert '/' !in name;
    ImageFromUploads(dirname, Some(phone), name, "hello");
  }

  /** The unit test of `sendAudio`: a remote URL passes unchanged. */
  lemma AudioExample(dirname: string, phone: string, canonical: string, address: string, audio: string)
    requires phone == "11987654321" && canonical == "5511987654321" && address == canonical + "@c.us"
    requires audio == "http://example.com/audio.ogg"
    ensures VoiceRequest(dirname, Some(phone), Some(audio)) == SendVoice(address, Some(audio))
  {
    AddressExample(phone, canonical, address);
    assert audio[0] == 'h' && audio[1] == 't';
    assert !IsUploadPath(audio);
  }
}
