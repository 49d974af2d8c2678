/**
 * The upload helpers: the MIME-type allow-list and the saving of an uploaded
 * file under a name that does not collide with an existing file.
 *
 * Paths are the strings `str()` gives for pathlib paths. `PathJoin(dir, name)`
 * is pathlib's `dir / name`: an absolute name replaces the directory, and
 * empty and "." parts are dropped. `Join(dir, name)` is the same join for a
 * name that is one plain component; `BaseName`, `Stem` and `Suffix` are
 * pathlib's `name`, `stem` and `suffix`. The file system holds the bytes of
 * every existing file, by path, and the set of existing directories.
 */
module FileUtils {
  import opened Text

  type Bytes = seq<bv8>

  /** The content types an upload may declare, compared after lower-casing. */
  const ValidAudioTypes: set<string> := {
    "audio/wav", "audio/wave", "audio/x-wav", "audio/mpeg", "audio/mp3", "audio/mp4",
    "audio/x-m4a", "audio/m4a", "audio/ogg", "audio/webm", "audio/flac"
  }

  /** `validate_audio_file`: whether the content type is an accepted audio type. */
  function ValidateAudioFile(contentType: string): (ok: bool)
    ensures ok ==> |contentType| >= 9 && Lower(contentType)[..6] == "audio/"
  {
    Lower(contentType) in ValidAudioTypes
  }

  /** The check ignores case: a type and its lower-cased form are judged alike. */
  lemma ValidateIgnoresCase(contentType: string)
    ensures ValidateAudioFile(contentType) == ValidateAudioFile(Lower(contentType))
    ensures ValidateAudioFile("AUDIO/WAV") && ValidateAudioFile("Audio/Mpeg")
  {
    LowerIdempotent(contentType);
    assert Lower("AUDIO/WAV") == "audio/wav";
    assert Lower("Audio/Mpeg") == "audio/mpeg";
  }

  /**
   * Every listed type is accepted as written; the empty type and unlisted
   * types, audio or not, are rejected.
   */
  lemma ValidateIsAllowList(contentType: string)
    ensures contentType in ValidAudioTypes ==> ValidateAudioFile(contentType)
    ensures !ValidateAudioFile("")
    ensures !ValidateAudioFile("audio/aac") && !ValidateAudioFile("video/mp4")
  {
    if contentType in ValidAudioTypes {
      LowerOfLowerCase(contentType);
    }
    LowerOfLowerCase("audio/aac");
    LowerOfLowerCase("video/mp4");
  }

  /** Lower-casing leaves a string without capital letters as it is. */
  lemma LowerOfLowerCase(s: string)
    requires forall i :: 0 <= i < |s| ==> !('A' <= s[i] <= 'Z')
    ensures Lower(s) == s
  {
  }

  /** `s.rfind(c)`: the index of the last `c` in `s`, or -1. */
  function LastIndexOf(s: string, c: char): (i: int)
    ensures -1 <= i < |s|
    ensures i >= 0 ==> s[i] == c
    ensures forall j :: i < j < |s| ==> s[j] != c
  {
    LastIndexBelow(s, c, |s|)
  }

  /** The index of the last `c` among the first `n` characters of `s`, or -1. */
  function LastIndexBelow(s: string, c: char, n: nat): (i: int)
    requires n <= |s|
    ensures -1 <= i < n
    ensures i >= 0 ==> s[i] == c
    ensures forall j :: i < j < n ==> s[j] != c
  {
    if n == 0 then -1
    else if s[n - 1] == c then n - 1
    else LastIndexBelow(s, c, n - 1)
  }

  /** The last occurrence of `c` is the only index with `c` and none after it. */
  lemma LastIndexOfIs(s: string, c: char, k: int)
    requires -1 <= k < |s| && (k >= 0 ==> s[k] == c)
    requires forall j :: k < j < |s| ==> s[j] != c
    ensures LastIndexOf(s, c) == k
  {
  }

  /**
   * pathlib's `name` of a path in normal form: what follows its last '/',
   * and nothing for ".", which has no parts (see `BaseNameIsLastPart`).
   */
  function BaseName(path: string): (name: string)
    ensures '/' !in name
    ensures |name| <= |path| && name == path[|path| - |name|..]
  {
    if |path| == 1 && path[0] == '.' then "" else path[LastIndexOf(path, '/') + 1..]
  }

  /**
   * `dir / name` for a directory in normal form and a name that is a single
   * plain component (see `PlainJoin`): below "." the name stands alone, and
   * below a bare root no further '/' is added.
   */
  function Join(dir: string, name: string): string
  {
    JoinPrefix(dir) + name
  }

  /**
   * What `Join` puts in front of the name: nothing for ".", the directory
   * itself when it ends in '/' (as "/" and "//" do), and otherwise the
   * directory and a '/'.
   */
  function JoinPrefix(dir: string): string
  {
    if |dir| == 1 && dir[0] == '.' then ""
    else if |dir| > 0 && dir[|dir| - 1] == '/' then dir
    else dir + "/"
  }

  /** The pieces of a path between its '/' separators, empty pieces included. */
  function Segments(s: string): seq<string>
    decreases |s|
  {
    var k := LastIndexOf(s, '/');
    if k < 0 then [s] else Segments(s[..k]) + [s[k + 1..]]
  }

  /** A path component pathlib keeps: not empty and not ".". */
  predicate Kept(part: string)
  {
    part != "" && part != "."
  }

  /** The pieces pathlib keeps as parts, in order. */
  function Significant(segs: seq<string>): seq<string>
  {
    if segs == [] then []
    else
      var last := segs[|segs| - 1];
      Significant(segs[..|segs| - 1]) + (if Kept(last) then [last] else [])
  }

  /** pathlib's parts of a path, without its root. */
  function Parts(s: string): seq<string>
  {
    Significant(Segments(s))
  }

  /**
   * pathlib's root of a POSIX path: none for a relative path, "//" for
   * exactly two leading slashes, "/" otherwise.
   */
  function Root(s: string): (root: string)
    ensures root == "" || root == "/" || root == "//"
    ensures root != "" <==> |s| > 0 && s[0] == '/'
  {
    if |s| == 0 || s[0] != '/' then ""
    else if |s| >= 2 && s[1] == '/' && (|s| == 2 || s[2] != '/') then "//"
    else "/"
  }

  /** Parts put back together with '/'. */
  function JoinParts(parts: seq<string>): string
  {
    if parts == [] then ""
    else if |parts| == 1 then parts[0]
    else JoinParts(parts[..|parts| - 1]) + "/" + parts[|parts| - 1]
  }

  /** `str()` of a path with the given root and parts; the empty relative path is ".". */
  function PathString(root: string, parts: seq<string>): string
  {
    if root == "" && parts == [] then "." else root + JoinParts(parts)
  }

  /**
   * pathlib's `Path(dir) / name`, as `str()` gives it: an absolute `name`
   * replaces the directory; otherwise the parts of both follow the
   * directory's root. Empty and "." parts are dropped, ".." is kept.
   */
  function PathJoin(dir: string, name: string): (p: string)
    ensures Root(name) != "" ==> Root(p) == Root(name) && Parts(p) == Parts(name)
    ensures Root(name) == "" ==> Root(p) == Root(dir) && Parts(p) == Parts(dir) + Parts(name)
  {
    PartsArePlain(name);
    if Root(name) != "" then
      PathOfParts(Root(name), Parts(name));
      PathString(Root(name), Parts(name))
    else
      PartsArePlain(dir);
      PlainAppend(Parts(dir), Parts(name));
      PathOfParts(Root(dir), Parts(dir) + Parts(name));
      PathString(Root(dir), Parts(dir) + Parts(name))
  }

  /** A path as pathlib prints it: `str()` of its own root and parts. */
  predicate Normal(dir: string)
  {
    dir == PathString(Root(dir), Parts(dir))
  }

  /** A directory path as a pathlib `Path` holds it. */
  type Dir = d: string | Normal(d) witness "."

  /** A single plain component: kept by pathlib and free of separators. */
  predicate Plain(name: string)
  {
    Kept(name) && '/' !in name
  }

  /**
   * `Path(s)`, as `str()` prints it: the root and the parts of `s`, in
   * normal form, with the same root and parts as `s`.
   */
  function PathOf(s: string): (d: Dir)
    ensures Root(d) == Root(s) && Parts(d) == Parts(s)
  {
    NormalForm(s);
    PathString(Root(s), Parts(s))
  }

  /** A path without separators is one segment. */
  lemma PlainSegments(s: string)
    requires '/' !in s
    ensures Segments(s) == [s]
  {
    LastIndexOfIs(s, '/', -1);
  }

  /** Adding "/" and a further piece adds one segment. */
  lemma SegmentsSnoc(s: string, t: string)
    requires '/' !in t
    ensures Segments(s + "/" + t) == Segments(s) + [t]
  {
    var p := s + "/" + t;
    forall j | |s| < j < |p| ensures p[j] != '/' {
      assert p[j] == t[j - |s| - 1];
    }
    LastIndexOfIs(p, '/', |s|);
    assert p[..|s|] == s && p[|s| + 1..] == t;
  }

  /** Filtering a sequence with one more piece at its end. */
  lemma SignificantSnoc(segs: seq<string>, last: string)
    ensures Significant(segs + [last]) == Significant(segs) + (if Kept(last) then [last] else [])
  {
    assert (segs + [last])[..|segs|] == segs;
  }

  /** No segment holds a separator. */
  lemma {:induction false} SegmentsHaveNoSlash(s: string)
    ensures forall i :: 0 <= i < |Segments(s)| ==> '/' !in Segments(s)[i]
    decreases |s|
  {
    var k := LastIndexOf(s, '/');
    if k >= 0 {
      SegmentsHaveNoSlash(s[..k]);
    }
  }

  /** The pieces kept from pieces without separators are plain components. */
  lemma {:induction false} SignificantArePlain(segs: seq<string>)
    requires forall i :: 0 <= i < |segs| ==> '/' !in segs[i]
    ensures forall i :: 0 <= i < |Significant(segs)| ==> Plain(Significant(segs)[i])
    decreases |segs|
  {
    if segs != [] {
      SignificantArePlain(segs[..|segs| - 1]);
    }
  }

  /** Every part of a path is a plain component. */
  lemma PartsArePlain(s: string)
    ensures forall i :: 0 <= i < |Parts(s)| ==> Plain(Parts(s)[i])
  {
    SegmentsHaveNoSlash(s);
    SignificantArePlain(Segments(s));
  }

  /** Filtering two sequences one after the other. */
  lemma {:induction false} SignificantAppend(xs: seq<string>, ys: seq<string>)
    ensures Significant(xs + ys) == Significant(xs) + Significant(ys)
    decreases |ys|
  {
    if ys == [] {
      assert xs + ys == xs;
    } else {
      var init, last := ys[..|ys| - 1], ys[|ys| - 1];
      assert xs + ys == (xs + init) + [last] && ys == init + [last];
      SignificantSnoc(xs + init, last);
      SignificantSnoc(init, last);
      SignificantAppend(xs, init);
    }
  }

  /** Plain components are all kept. */
  lemma {:induction false} SignificantOfPlain(ps: seq<string>)
    requires forall i :: 0 <= i < |ps| ==> Plain(ps[i])
    ensures Significant(ps) == ps
    decreases |ps|
  {
    if ps != [] {
      SignificantOfPlain(ps[..|ps| - 1]);
      assert ps == ps[..|ps| - 1] + [ps[|ps| - 1]];
    }
  }

  /** The empty pieces a root leaves in front of the first part. */
  function RootSegments(root: string): seq<string>
  {
    if root == "" then [] else if root == "/" then [""] else ["", ""]
  }

  /** The segments of "", "/" and "//": one, two and three empty pieces. */
  lemma BareSegments()
    ensures Segments("") == [""] && Segments("/") == ["", ""] && Segments("//") == ["", "", ""]
    ensures Parts("") == [] && Parts("/") == [] && Parts("//") == [] && Parts(".") == []
  {
    SegmentsOfSlashes();
    PlainSegments(".");
    SignificantSnoc([], "");
    SignificantSnoc([""], "");
    SignificantSnoc(["", ""], "");
    SignificantSnoc([], ".");
    assert [""] + [""] == ["", ""] && ["", ""] + [""] == ["", "", ""];
  }

  /** The segments of "", "/" and "//". */
  lemma SegmentsOfSlashes()
    ensures Segments("") == [""] && Segments("/") == ["", ""] && Segments("//") == ["", "", ""]
  {
    PlainSegments("");
    SegmentsSnoc("", "");
    assert "/" == "" + "/" + "";
    SegmentsSnoc("/", "");
    assert "//" == "/" + "/" + "";
  }

  /** A root followed by plain parts splits into the root's empty pieces and the parts. */
  lemma {:induction false} SegmentsOfPath(root: string, ps: seq<string>)
    requires root == "" || root == "/" || root == "//"
    requires ps != [] && forall i :: 0 <= i < |ps| ==> '/' !in ps[i]
    ensures Segments(root + JoinParts(ps)) == RootSegments(root) + ps
    decreases |ps|
  {
    var last := ps[|ps| - 1];
    if |ps| == 1 {
      SegmentsOfRootedPart(root, last);
    } else {
      var init := ps[..|ps| - 1];
      assert forall i :: 0 <= i < |init| ==> init[i] == ps[i];
      var prefix := root + JoinParts(init);
      SegmentsOfPath(root, init);
      JoinPartsSnoc(root, ps);
      SegmentsSnoc(prefix, last);
      InitAndLast(RootSegments(root), ps);
    }
  }

  /** A sequence is its front followed by its last element. */
  lemma InitAndLast<T>(front: seq<T>, s: seq<T>)
    requires s != []
    ensures front + s == (front + s[..|s| - 1]) + [s[|s| - 1]]
  {
  }

  /** The last part follows the others after a '/'. */
  lemma JoinPartsSnoc(root: string, ps: seq<string>)
    requires |ps| > 1
    ensures root + JoinParts(ps) == (root + JoinParts(ps[..|ps| - 1])) + "/" + ps[|ps| - 1]
  {
    var front, last := JoinParts(ps[..|ps| - 1]), ps[|ps| - 1];
    assert JoinParts(ps) == front + "/" + last;
    RegroupConcat(root, front, "/", last);
  }

  /** Concatenation regrouped: a prefix in front of three pieces. */
  lemma RegroupConcat<T>(a: seq<T>, b: seq<T>, c: seq<T>, d: seq<T>)
    ensures a + (b + c + d) == (a + b) + c + d
  {
  }

  /** A root followed by one plain part. */
  lemma SegmentsOfRootedPart(root: string, part: string)
    requires root == "" || root == "/" || root == "//"
    requires '/' !in part
    ensures Segments(root + part) == RootSegments(root) + [part]
  {
    if root == "" {
      PlainSegments(part);
      assert root + part == part;
    } else if root == "/" {
      assert root + part == "" + "/" + part;
      SegmentsSnoc("", part);
      PlainSegments("");
    } else {
      assert root + part == "/" + "/" + part;
      SegmentsSnoc("/", part);
      BareSegments();
    }
  }

  /** Plain parts put together start with the first character of the first part. */
  lemma {:induction false} JoinPartsStart(ps: seq<string>)
    requires ps != [] && ps[0] != ""
    ensures |JoinParts(ps)| > 0 && JoinParts(ps)[0] == ps[0][0]
    decreases |ps|
  {
    if |ps| > 1 {
      JoinPartsStart(ps[..|ps| - 1]);
    }
  }

  /** A root followed by plain parts has that root and those parts. */
  lemma RootAndPartsOfPath(root: string, ps: seq<string>)
    requires root == "" || root == "/" || root == "//"
    requires ps != [] && forall i :: 0 <= i < |ps| ==> Plain(ps[i])
    ensures Root(root + JoinParts(ps)) == root && Parts(root + JoinParts(ps)) == ps
  {
    RootOfPath(root, ps);
    SegmentsOfPath(root, ps);
    SignificantAppend(RootSegments(root), ps);
    SignificantOfPlain(ps);
    RootSegmentsDropped(root);
  }

  /** A root followed by plain parts has that root. */
  lemma RootOfPath(root: string, ps: seq<string>)
    requires root == "" || root == "/" || root == "//"
    requires ps != [] && Plain(ps[0])
    ensures Root(root + JoinParts(ps)) == root
  {
    var p := root + JoinParts(ps);
    JoinPartsStart(ps);
    assert p[|root|] == ps[0][0] && ps[0][0] in ps[0];
  }

  /** The empty pieces of a root are not parts. */
  lemma RootSegmentsDropped(root: string)
    ensures Significant(RootSegments(root)) == []
  {
    SignificantSnoc([], "");
    SignificantSnoc([""], "");
    assert [""] == [] + [""] && ["", ""] == [""] + [""];
  }

  /** pathlib's normal form of any string is in normal form, with the same root and parts. */
  lemma NormalForm(s: string)
    ensures var d := PathString(Root(s), Parts(s)); Normal(d) && Root(d) == Root(s) && Parts(d) == Parts(s)
  {
    PartsArePlain(s);
    PathOfParts(Root(s), Parts(s));
  }

  /** A root and plain parts print as a path in normal form with that root and those parts. */
  lemma PathOfParts(root: string, ps: seq<string>)
    requires root == "" || root == "/" || root == "//"
    requires forall i :: 0 <= i < |ps| ==> Plain(ps[i])
    ensures var p := PathString(root, ps); Normal(p) && Root(p) == root && Parts(p) == ps
  {
    if ps != [] {
      RootAndPartsOfPath(root, ps);
    } else {
      BareDirsNormal();
      BareSegments();
      assert PathString(root, ps) == if root == "" then "." else root;
    }
  }

  /** Plain parts followed by plain parts. */
  lemma PlainAppend(xs: seq<string>, ys: seq<string>)
    requires forall i :: 0 <= i < |xs| ==> Plain(xs[i])
    requires forall i :: 0 <= i < |ys| ==> Plain(ys[i])
    ensures forall i :: 0 <= i < |xs + ys| ==> Plain((xs + ys)[i])
  {
  }

  /** The paths in normal form without parts are ".", "/" and "//". */
  lemma NormalWithoutParts(dir: string)
    requires Normal(dir)
    ensures Parts(dir) == [] <==> dir == "." || dir == "/" || dir == "//"
  {
    BareSegments();
  }

  /** A plain name is a relative path with that one part, and in normal form. */
  lemma PlainParts(name: string)
    requires Plain(name)
    ensures Root(name) == "" && Parts(name) == [name] && Normal(name)
  {
    PlainSegments(name);
    SignificantSnoc([], name);
    assert name[0] in name;
  }

  /** Joining two non-empty part lists puts a '/' between them. */
  lemma {:induction false} JoinPartsAppend(xs: seq<string>, ys: seq<string>)
    requires xs != [] && ys != []
    ensures JoinParts(xs + ys) == JoinParts(xs) + "/" + JoinParts(ys)
    decreases |ys|
  {
    var zs := xs + ys;
    if |ys| == 1 {
      assert zs[..|zs| - 1] == xs;
    } else {
      var init := ys[..|ys| - 1];
      assert zs[..|zs| - 1] == xs + init;
      JoinPartsAppend(xs, init);
      RegroupConcat(JoinParts(xs) + "/", JoinParts(init), "/", ys[|ys| - 1]);
    }
  }

  /** A relative name with parts is joined below a directory in normal form as `Join` does. */
  lemma JoinBelow(dir: string, name: string)
    requires Normal(dir) && Root(name) == "" && Parts(name) != []
    ensures PathJoin(dir, name) == Join(dir, JoinParts(Parts(name)))
  {
    assert PathJoin(dir, name) == Root(dir) + JoinParts(Parts(dir) + Parts(name));
    if Parts(dir) != [] {
      JoinBelowDirWithParts(dir, Parts(name));
    } else {
      JoinBelowBareDir(dir, Parts(name));
    }
  }

  /** Below a directory with parts, the name's parts follow the directory and one '/'. */
  lemma JoinBelowDirWithParts(dir: string, ns: seq<string>)
    requires Normal(dir) && Parts(dir) != [] && ns != []
    ensures Root(dir) + JoinParts(Parts(dir) + ns) == Join(dir, JoinParts(ns))
  {
    var root, ds := Root(dir), Parts(dir);
    PrefixOfDirWithParts(dir);
    JoinPartsAppend(ds, ns);
    calc {
      root + JoinParts(ds + ns);
      root + (JoinParts(ds) + "/" + JoinParts(ns));
      (root + JoinParts(ds)) + "/" + JoinParts(ns);
      dir + "/" + JoinParts(ns);
    }
  }

  /** Below ".", "/" and "//", the name's parts follow the root alone. */
  lemma JoinBelowBareDir(dir: string, ns: seq<string>)
    requires Normal(dir) && Parts(dir) == []
    ensures Root(dir) + JoinParts(Parts(dir) + ns) == Join(dir, JoinParts(ns))
  {
    PrefixOfDirWithoutParts(dir);
    assert Parts(dir) + ns == ns;
  }

  /** Plain parts put together end with the last character of the last part. */
  lemma JoinPartsEnd(ps: seq<string>)
    requires ps != [] && ps[|ps| - 1] != ""
    ensures var j := JoinParts(ps); |j| > 0 && j[|j| - 1] == ps[|ps| - 1][|ps[|ps| - 1]| - 1]
  {
  }

  /** A directory with parts in normal form does not end in '/', so `Join` adds one. */
  lemma PrefixOfDirWithParts(dir: string)
    requires Normal(dir) && Parts(dir) != []
    ensures JoinPrefix(dir) == dir + "/"
  {
    var ps := Parts(dir);
    var last := ps[|ps| - 1];
    PartsArePlain(dir);
    JoinPartsEnd(ps);
    assert last[|last| - 1] in last;
    assert dir[|dir| - 1] != '/';
    if |dir| == 1 && dir[0] == '.' {
      assert dir == ".";
      BareSegments();
    }
  }

  /** Below ".", "/" and "//" `Join` puts the root alone in front of the name. */
  lemma PrefixOfDirWithoutParts(dir: string)
    requires Normal(dir) && Parts(dir) == []
    ensures JoinPrefix(dir) == Root(dir) && dir == (if Root(dir) == "" then "." else Root(dir))
  {
  }

  /**
   * For a directory in normal form and a plain name, pathlib's join is
   * `Join`, and the last component of the result is the name.
   */
  lemma PlainJoin(dir: string, name: string)
    requires Normal(dir) && Plain(name)
    ensures PathJoin(dir, name) == Join(dir, name)
    ensures BaseName(PathJoin(dir, name)) == name
  {
    PlainParts(name);
    JoinBelow(dir, name);
    BaseNameOfJoin(dir, name);
  }

  /**
   * Below the working directory "." a plain name stands alone, and below
   * the root "/" it follows the single '/'.
   */
  lemma BareDirJoin(name: string)
    requires Plain(name)
    ensures PathJoin(".", name) == name && PathJoin("/", name) == "/" + name
  {
    BareDirsNormal();
    PlainJoin(".", name);
    PlainJoin("/", name);
    assert JoinPrefix(".") == "" && JoinPrefix("/") == "/";
  }

  /** ".", "/" and "//" are in normal form. */
  lemma BareDirsNormal()
    ensures Normal(".") && Normal("/") && Normal("//")
  {
    BareSegments();
  }

  /** Three pieces joined by '/' are three segments. */
  lemma SegmentsOfThree(x: string, y: string, z: string)
    requires '/' !in x && '/' !in y && '/' !in z
    ensures Segments(x + "/" + y + "/" + z) == [x, y, z]
  {
    PlainSegments(x);
    SegmentsSnoc(x, y);
    SegmentsSnoc(x + "/" + y, z);
  }

  /** The parts kept from three segments, in order. */
  lemma SignificantOfThree(x: string, y: string, z: string)
    ensures Significant([x, y, z]) == (if Kept(x) then [x] else []) + (if Kept(y) then [y] else []) + (if Kept(z) then [z] else [])
  {
    SignificantSnoc([], x);
    SignificantSnoc([x], y);
    SignificantSnoc([x, y], z);
    assert [x, y] == [x] + [y] && [x, y, z] == [x, y] + [z];
  }

  /** The root and the parts of "/<a>/<b>". */
  lemma AbsoluteParts(a: string, b: string)
    requires Plain(a) && Plain(b)
    ensures Root("/" + a + "/" + b) == "/" && Parts("/" + a + "/" + b) == [a, b]
  {
    var name := "/" + a + "/" + b;
    assert name == [] + "/" + a + "/" + b;
    SegmentsOfThree([], a, b);
    SignificantOfThree([], a, b);
    assert a[0] in a && name[1] == a[0];
  }

  /** Two parts are joined with one '/'. */
  lemma JoinTwoParts(a: string, b: string)
    ensures JoinParts([a, b]) == a + "/" + b
  {
    assert [a, b][..1] == [a];
  }

  /**
   * An absolute name replaces the directory: "/<a>/<b>" is joined to itself,
   * outside `dir`, and its last component is `b`.
   */
  lemma AbsoluteNameReplacesDir(dir: string, a: string, b: string)
    requires Plain(a) && Plain(b)
    ensures PathJoin(dir, "/" + a + "/" + b) == "/" + a + "/" + b
    ensures BaseName("/" + a + "/" + b) == b
  {
    AbsoluteParts(a, b);
    JoinTwoParts(a, b);
    assert "/" + (a + "/" + b) == "/" + a + "/" + b;
    BaseNameAfterSlash("/" + a, b);
  }

  /** "./<a>" keeps only the part `a`. */
  lemma DotPrefixDropped(dir: string, a: string)
    requires Normal(dir) && Plain(a)
    ensures PathJoin(dir, "./" + a) == Join(dir, a)
  {
    DotPrefixParts(a);
    JoinBelow(dir, "./" + a);
  }

  /** "./<a>" is relative, with the one part `a`. */
  lemma DotPrefixParts(a: string)
    requires Plain(a)
    ensures Root("./" + a) == "" && Parts("./" + a) == [a]
  {
    var name := "./" + a;
    assert name == "." + "/" + a;
    PlainSegments(".");
    SegmentsSnoc(".", a);
    SignificantSnoc([], ".");
    SignificantSnoc(["."], a);
  }

  /** "<a>//<b>" keeps the parts `a` and `b`. */
  lemma EmptyPartDropped(dir: string, a: string, b: string)
    requires Normal(dir) && Plain(a) && Plain(b)
    ensures PathJoin(dir, a + "//" + b) == Join(dir, a + "/" + b)
  {
    var name := a + "//" + b;
    assert name == a + "/" + [] + "/" + b;
    SegmentsOfThree(a, [], b);
    SignificantOfThree(a, [], b);
    assert Parts(name) == [a, b];
    assert name[0] == a[0] && a[0] in a;
    JoinBelow(dir, name);
    JoinTwoParts(a, b);
  }

  /** The name "." is joined to the directory itself. */
  lemma DotNameIsDir(dir: string)
    requires Normal(dir)
    ensures PathJoin(dir, ".") == dir
  {
    PlainSegments(".");
    SignificantSnoc([], ".");
    assert Root(".") == "" && Parts(".") == [];
    assert Parts(dir) + Parts(".") == Parts(dir);
  }

  /** What follows the last '/' is the last component. */
  lemma BaseNameAfterSlash(prefix: string, name: string)
    requires '/' !in name
    ensures BaseName(prefix + "/" + name) == name
  {
    var p := prefix + "/" + name;
    assert p[|prefix|] == '/';
    forall j | |prefix| < j < |p| ensures p[j] != '/' {
      assert p[j] == name[j - |prefix| - 1];
    }
    LastIndexOfIs(p, '/', |prefix|);
    assert p[|prefix| + 1..] == name;
  }

  /** Joining a name without a separator and taking its last component gives the name back. */
  lemma BaseNameOfJoin(dir: string, name: string)
    requires '/' !in name && name != "."
    ensures BaseName(Join(dir, name)) == name
  {
    if |dir| == 1 && dir[0] == '.' {
      LastIndexOfIs(name, '/', -1);
    } else if |dir| > 0 && dir[|dir| - 1] == '/' {
      assert Join(dir, name) == dir[..|dir| - 1] + "/" + name;
      BaseNameAfterSlash(dir[..|dir| - 1], name);
    } else {
      BaseNameAfterSlash(dir, name);
    }
  }

  /** pathlib's `name` is the last part of the path, or nothing when it has no parts. */
  lemma BaseNameIsLastPart(path: string)
    requires Normal(path)
    ensures BaseName(path) == if Parts(path) == [] then "" else Parts(path)[|Parts(path)| - 1]
  {
    if Parts(path) == [] {
      PrefixOfDirWithoutParts(path);
      if Root(path) != "" {
        LastIndexOfIs(path, '/', |path| - 1);
      }
    } else {
      BaseNameOfPartsPath(path);
    }
  }

  /** The last component of a path with parts is its last part. */
  lemma BaseNameOfPartsPath(path: string)
    requires Normal(path) && Parts(path) != []
    ensures BaseName(path) == Parts(path)[|Parts(path)| - 1]
  {
    PartsArePlain(path);
    BaseNameOfRootedParts(Root(path), Parts(path));
  }

  /** The last component of a root followed by parts is the last part. */
  lemma BaseNameOfRootedParts(root: string, ps: seq<string>)
    requires root == "" || root == "/" || root == "//"
    requires ps != [] && Plain(ps[|ps| - 1])
    ensures BaseName(root + JoinParts(ps)) == ps[|ps| - 1]
  {
    var last := ps[|ps| - 1];
    if |ps| > 1 {
      JoinPartsSnoc(root, ps);
      BaseNameAfterSlash(root + JoinParts(ps[..|ps| - 1]), last);
    } else if root == "" {
      assert root + JoinParts(ps) == last;
      LastIndexOfIs(last, '/', -1);
    } else {
      assert root + JoinParts(ps) == root[..|root| - 1] + "/" + last;
      BaseNameAfterSlash(root[..|root| - 1], last);
    }
  }

  /**
   * Where the suffix of a file name starts: at its last '.', unless that dot is
   * the first or the last character (then the name has no suffix).
   */
  function SuffixStart(name: string): (k: nat)
    ensures k <= |name|
    ensures k < |name| ==> 0 < k < |name| - 1 && name[k] == '.' && '.' !in name[k + 1..]
  {
    var i := LastIndexOf(name, '.');
    if 0 < i < |name| - 1 then i else |name|
  }

  /** pathlib's `stem`. */
  function Stem(name: string): (stem: string)
    ensures stem <= name
    ensures stem == "" <==> name == ""
  {
    name[..SuffixStart(name)]
  }

  /** pathlib's `suffix`. */
  function Suffix(name: string): (suffix: string)
    ensures |suffix| <= |name| && suffix == name[|name| - |suffix|..]
    ensures suffix == "" || (|suffix| >= 2 && suffix[0] == '.' && '.' !in suffix[1..])
  {
    name[SuffixStart(name)..]
  }

  /** A name and its parts: the stem and the suffix put back together give the name. */
  lemma StemSuffix(name: string)
    ensures Stem(name) + Suffix(name) == name
    ensures Suffix(name) == [] || (|Suffix(name)| >= 2 && Suffix(name)[0] == '.' && Stem(name) != [])
  {
    assert name[..SuffixStart(name)] + name[SuffixStart(name)..] == name;
  }

  /** A name that ends in '.' after its first character: pathlib gives it no suffix. */
  predicate EndsWithDot(name: string)
  {
    |name| >= 2 && name[|name| - 1] == '.'
  }

  /**
   * The name tried on retry number `counter`: `f"{stem}_{counter}{suffix}"`.
   * It is at least two characters longer than the name, and has no separator
   * if the name had none.
   */
  function RetryName(name: string, counter: nat): (r: string)
    ensures |r| >= |name| + 2
    ensures '/' !in name ==> '/' !in r
  {
    var d := NatToString(counter);
    StemSuffix(name);
    assert forall j :: 0 <= j < |d| ==> d[j] != '/';
    Stem(name) + "_" + d + Suffix(name)
  }

  /** The existing paths at least `n` characters long. */
  function LongPaths(files: set<string>, n: nat): set<string>
  {
    set p | p in files && |p| >= n
  }

  /** A subset is no larger than the set containing it. */
  lemma {:induction false} SubsetSmaller<T>(a: set<T>, b: set<T>)
    requires a <= b
    ensures |a| <= |b|
    decreases b
  {
    if a != {} {
      var x :| x in a;
      SubsetSmaller(a - {x}, b - {x});
    }
  }

  /** A candidate longer than an existing path collides with fewer existing paths. */
  lemma FewerLongPaths(files: set<string>, path: string, longer: string)
    requires path in files && |longer| > |path|
    ensures |LongPaths(files, |longer|)| < |LongPaths(files, |path|)|
  {
    var few, all := LongPaths(files, |longer|), LongPaths(files, |path|);
    assert path in all && path !in few;
    assert few <= all - {path};
    SubsetSmaller(few, all - {path});
  }

  /**
   * The name the collision loop settles on once it is past its first pass,
   * the candidate being `dir / name` and the next counter `counter`: the
   * first name in the chain of retry names whose path is free.
   */
  function FreeName(files: set<string>, dir: string, name: string, counter: nat): (r: string)
    ensures Join(dir, r) !in files
    ensures '/' !in name ==> '/' !in r
    ensures |r| >= |name|
    decreases |LongPaths(files, |Join(dir, name)|)|
  {
    if Join(dir, name) !in files then name
    else
      FewerLongPaths(files, Join(dir, name), Join(dir, RetryName(name, counter)));
      FreeName(files, dir, RetryName(name, counter), counter + 1)
  }

  /**
   * The path the collision loop of `save_voice_file` settles on, `files`
   * being every existing path: `dir / filename` when nothing exists there,
   * and otherwise the retry names of its last component, counting from 1,
   * each joined to `dir`.
   */
  function FreePath(files: set<string>, dir: string, filename: string): (r: string)
    ensures r !in files
  {
    var first := PathJoin(dir, filename);
    if first !in files then first
    else Join(dir, FreeName(files, dir, RetryName(BaseName(first), 1), 2))
  }

  /** The number of passes the loop makes once past its first pass. */
  function RetriesFrom(files: set<string>, dir: string, name: string, counter: nat): nat
    decreases |LongPaths(files, |Join(dir, name)|)|
  {
    if Join(dir, name) !in files then 0
    else
      FewerLongPaths(files, Join(dir, name), Join(dir, RetryName(name, counter)));
      1 + RetriesFrom(files, dir, RetryName(name, counter), counter + 1)
  }

  /** The number of passes the collision loop of `save_voice_file` makes. */
  function Passes(files: set<string>, dir: string, filename: string): nat
  {
    var first := PathJoin(dir, filename);
    if first !in files then 0
    else 1 + RetriesFrom(files, dir, RetryName(BaseName(first), 1), 2)
  }

  /**
   * Past the first pass, each pass consumes one existing path at least as long
   * as the candidate; `first` is never one of them, being either shorter than
   * every candidate or not of the form `dir / name` for a plain name.
   */
  lemma {:induction false} RetriesFromBounded(files: set<string>, dir: string, name: string, counter: nat, first: string)
    requires '/' !in name
    requires |first| < |Join(dir, name)| || forall m :: '/' !in m ==> Join(dir, m) != first
    ensures RetriesFrom(files, dir, name, counter) <= |LongPaths(files - {first}, |Join(dir, name)|)|
    decreases |LongPaths(files, |Join(dir, name)|)|
  {
    var path := Join(dir, name);
    if path in files {
      var next := RetryName(name, counter);
      FewerLongPaths(files, path, Join(dir, next));
      RetriesFromBounded(files, dir, next, counter + 1, first);
      assert path != first;
      FewerLongPaths(files - {first}, path, Join(dir, next));
    }
  }

  /** The loop makes at most as many passes as there are existing files. */
  lemma PassesBounded(files: set<string>, dir: string, filename: string)
    ensures Passes(files, dir, filename) <= |files|
  {
    var first := PathJoin(dir, filename);
    if first in files {
      var name := RetryName(BaseName(first), 1);
      if exists m :: '/' !in m && Join(dir, m) == first {
        var m :| '/' !in m && Join(dir, m) == first;
        if m != "." {
          BaseNameOfJoin(dir, m);
        }
      }
      RetriesFromBounded(files, dir, name, 2, first);
      SubsetSmaller(LongPaths(files - {first}, |Join(dir, name)|), files - {first});
    }
  }

  /** A retry keeps the suffix, and keeps the name free of a trailing dot. */
  lemma RetryKeepsSuffix(name: string, counter: nat)
    requires !EndsWithDot(name)
    ensures Suffix(RetryName(name, counter)) == Suffix(name)
    ensures !EndsWithDot(RetryName(name, counter))
  {
    StemSuffix(name);
    if SuffixStart(name) < |name| {
      RetryKeepsDottedSuffix(name, counter);
    } else {
      RetryKeepsNoSuffix(name, counter);
    }
  }

  /** The suffix starts at the last dot, which stays the last dot of the retry name. */
  lemma RetryKeepsDottedSuffix(name: string, counter: nat)
    requires SuffixStart(name) < |name|
    ensures Suffix(RetryName(name, counter)) == Suffix(name)
    ensures !EndsWithDot(RetryName(name, counter))
  {
    var d := NatToString(counter);
    var r := RetryName(name, counter);
    var k := SuffixStart(name);
    var stem, suffix := Stem(name), Suffix(name);
    var mid := "_" + d;
    assert r == stem + mid + suffix;
    var at := |stem| + |mid|;
    assert r[at] == '.';
    forall j | at < j < |r| ensures r[j] != '.' {
      assert r[j] == suffix[j - at] == name[k + (j - at)];
    }
    LastIndexOfIs(r, '.', at);
    assert 0 < at < |r| - 1;
    assert r[at..] == suffix;
    assert r[|r| - 1] == name[|name| - 1];
  }

  /** A name without a suffix and without a trailing dot gains no suffix on retry. */
  lemma RetryKeepsNoSuffix(name: string, counter: nat)
    requires SuffixStart(name) == |name| && !EndsWithDot(name)
    ensures Suffix(RetryName(name, counter)) == Suffix(name) == []
    ensures !EndsWithDot(RetryName(name, counter))
  {
    var d := NatToString(counter);
    var r := RetryName(name, counter);
    var i := LastIndexOf(name, '.');
    var mid := "_" + d;
    assert i <= 0;
    assert r == name + mid;
    forall j | i < j < |r| ensures r[j] != '.' {
      if j > |name| {
        assert r[j] == mid[j - |name|] == d[j - |name| - 1];
      } else if j == |name| {
        assert r[j] == '_';
      } else {
        assert r[j] == name[j];
      }
    }
    LastIndexOfIs(r, '.', i);
    assert r[|r| - 1] == d[|d| - 1];
  }

  /** Every name the loop tries keeps the suffix of the uploaded name. */
  lemma {:induction false} FreeNameKeepsSuffix(files: set<string>, dir: string, name: string, counter: nat)
    requires !EndsWithDot(name)
    ensures Suffix(FreeName(files, dir, name, counter)) == Suffix(name)
    decreases |LongPaths(files, |Join(dir, name)|)|
  {
    if Join(dir, name) in files {
      FewerLongPaths(files, Join(dir, name), Join(dir, RetryName(name, counter)));
      RetryKeepsSuffix(name, counter);
      FreeNameKeepsSuffix(files, dir, RetryName(name, counter), counter + 1);
    }
  }

  /**
   * The saved file keeps the suffix of the first candidate's last component
   * (for a plain name, the suffix of the uploaded name), unless that
   * component ends in '.'.
   */
  lemma FreePathKeepsSuffix(files: set<string>, dir: string, filename: string)
    requires !EndsWithDot(BaseName(PathJoin(dir, filename)))
    ensures Suffix(BaseName(FreePath(files, dir, filename))) == Suffix(BaseName(PathJoin(dir, filename)))
  {
    var first := PathJoin(dir, filename);
    if first in files {
      var base := BaseName(first);
      RetryKeepsSuffix(base, 1);
      FreeNameKeepsSuffix(files, dir, RetryName(base, 1), 2);
      BaseNameOfJoin(dir, FreeName(files, dir, RetryName(base, 1), 2));
    }
  }

  /**
   * An absolute upload name is written where it points, outside `dir`, when
   * nothing exists there; when something does, the retries are made inside
   * `dir` from its last component.
   */
  lemma AbsoluteNameEscapesDir(files: set<string>, dir: string, a: string, b: string)
    requires Plain(a) && Plain(b)
    ensures "/" + a + "/" + b !in files ==> FreePath(files, dir, "/" + a + "/" + b) == "/" + a + "/" + b
    ensures "/" + a + "/" + b in files ==>
      FreePath(files, dir, "/" + a + "/" + b) == Join(dir, FreeName(files, dir, RetryName(b, 1), 2))
  {
    AbsoluteNameReplacesDir(dir, a, b);
  }

  /**
   * The upload name "." names the directory itself, which exists once it is
   * created, so the file is saved under the retry name of the directory's
   * own last component.
   */
  lemma DotNameRetried(files: set<string>, dir: string)
    requires Normal(dir) && dir in files
    ensures FreePath(files, dir, ".") == Join(dir, FreeName(files, dir, RetryName(BaseName(dir), 1), 2))
  {
    DotNameIsDir(dir);
  }

  /**
   * Below the working directory the name "." is the directory itself, which
   * has no name, so the retries start from "_1".
   */
  lemma DotInWorkingDirRetried(files: set<string>)
    requires "." in files
    ensures FreePath(files, ".", ".") == FreeName(files, ".", "_1", 2)
  {
    BareSegments();
    DotNameIsDir(".");
    LastIndexOfIs("", '.', -1);
    assert NatToString(1) == "1";
    assert RetryName("", 1) == "_1";
  }

  /**
   * The stem is read again from the current candidate: with `sample.wav` and
   * `sample_1.wav` taken, the name saved is `sample_1_2.wav`, not
   * `sample_2.wav`.
   */
  lemma StemIsReread(dir: string, stem: string, ext: string)
    requires Normal(dir)
    requires stem != [] && '.' !in stem && '/' !in stem
    requires |ext| >= 2 && ext[0] == '.' && '.' !in ext[1..] && '/' !in ext
    ensures FreePath({Join(dir, stem + ext), Join(dir, stem + "_1" + ext)}, dir, stem + ext)
      == Join(dir, stem + "_1" + "_2" + ext)
  {
    var files := {Join(dir, stem + ext), Join(dir, stem + "_1" + ext)};
    RetryOfPlainName(stem, "_1", ext, 1);
    PlainJoin(dir, stem + ext);
    SecondRetry(files, dir, stem, ext);
  }

  /** The second pass of the example above: `sample_1.wav` is taken, `sample_1_2.wav` is free. */
  lemma SecondRetry(files: set<string>, dir: string, stem: string, ext: string)
    requires stem != [] && '.' !in stem && '/' !in stem
    requires |ext| >= 2 && ext[0] == '.' && '.' !in ext[1..] && '/' !in ext
    requires files == {Join(dir, stem + ext), Join(dir, stem + "_1" + ext)}
    ensures FreeName(files, dir, stem + "_1" + ext, 2) == stem + "_1" + "_2" + ext
  {
    assert '.' !in stem + "_1" && '/' !in stem + "_1" by {
      assert forall c :: c in stem + "_1" ==> c in stem || c == '_' || c == '1';
    }
    RetryOfPlainName(stem + "_1", "_2", ext, 2);
    var last := stem + "_1" + "_2" + ext;
    assert |Join(dir, last)| > |Join(dir, stem + "_1" + ext)| > |Join(dir, stem + ext)|;
    assert Join(dir, last) !in files;
  }

  /** The retry name of `<stem><ext>` with a one-digit counter is `<stem>_<digit><ext>`. */
  lemma RetryOfPlainName(stem: string, tag: string, ext: string, counter: nat)
    requires stem != [] && '.' !in stem && '/' !in stem
    requires |ext| >= 2 && ext[0] == '.' && '.' !in ext[1..] && '/' !in ext
    requires counter < 10 && tag == "_" + [DigitChar(counter)]
    ensures RetryName(stem + ext, counter) == stem + tag + ext
    ensures '/' !in stem + ext
  {
    var name := stem + ext;
    assert '/' !in name by {
      assert forall j :: 0 <= j < |name| ==> name[j] == (if j < |stem| then stem[j] else ext[j - |stem|]);
    }
    assert name[|stem|] == '.';
    forall j | |stem| < j < |name| ensures name[j] != '.' {
      assert name[j] == ext[j - |stem|] == ext[1..][j - |stem| - 1];
    }
    LastIndexOfIs(name, '.', |stem|);
    assert name[..|stem|] == stem && name[|stem|..] == ext;
    assert stem + "_" + NatToString(counter) == stem + tag;
  }

  /** A name ending in '.' has no suffix, yet its retry name does: "a." becomes "a._1". */
  lemma TrailingDotGainsSuffix()
    ensures Suffix("a.") == [] && RetryName("a.", 1) == "a._1" && Suffix("a._1") == "._1"
  {
    LastIndexOfIs("a.", '.', 1);
    LastIndexOfIs("a._1", '.', 1);
    assert NatToString(1) == "1";
  }

  /**
   * One pass of the collision loop: the candidate `path` exists, and the next
   * candidate is `dir` joined to the retry name of `path`'s last component.
   * The next name is plain, the chain of names still ends at `FreePath`, one
   * pass fewer is left, and past the first pass fewer existing paths are as
   * long as the candidate.
   */
  lemma RetryStep(files: set<string>, dir: string, filename: string, path: string, name: string, counter: nat)
    requires Normal(dir) && path in files && counter >= 1
    requires counter == 1 ==> path == PathJoin(dir, filename)
    requires counter > 1 ==> Plain(name) && path == Join(dir, name)
    ensures var next := RetryName(BaseName(path), counter);
      Plain(next) && PathJoin(dir, next) == Join(dir, next)
    ensures var next := RetryName(BaseName(path), counter);
      counter == 1 ==>
        Join(dir, FreeName(files, dir, next, 2)) == FreePath(files, dir, filename) &&
        1 + RetriesFrom(files, dir, next, 2) == Passes(files, dir, filename)
    ensures var next := RetryName(BaseName(path), counter);
      counter > 1 ==>
        FreeName(files, dir, next, counter + 1) == FreeName(files, dir, name, counter) &&
        1 + RetriesFrom(files, dir, next, counter + 1) == RetriesFrom(files, dir, name, counter) &&
        |LongPaths(files, |Join(dir, next)|)| < |LongPaths(files, |path|)|
  {
    var base := BaseName(path);
    if counter > 1 {
      BaseNameOfJoin(dir, name);
    }
    var next := RetryName(base, counter);
    PlainJoin(dir, next);
    if counter > 1 {
      FewerLongPaths(files, path, Join(dir, next));
    }
  }

  /**
   * The path `save_voice_file` writes, given the existing files and
   * directories: the directory is created first, so it counts as taken too.
   */
  function SavePath(files: set<string>, dirs: set<string>, dir: string, filename: string): (p: string)
    ensures p !in files && p !in dirs && p != dir
  {
    FreePath(files + dirs + {dir}, dir, filename)
  }

  /**
   * The local file system: the bytes of every existing file, by path, and
   * the paths of the existing directories.
   */
  class FileSystem {
    var files: map<string, Bytes>
    var dirs: set<string>

    constructor (initial: map<string, Bytes>, directories: set<string>)
      ensures files == initial && dirs == directories
    {
      files := initial;
      dirs := directories;
    }

    /** Every path something exists at. */
    function Taken(): set<string>
      reads this
    {
      files.Keys + dirs
    }

    /** `Path(path).exists()`: a file or a directory is there. */
    function Exists(path: string): (b: bool)
      reads this
      ensures b <==> path in files || path in dirs
    {
      path in Taken()
    }

    /** `Path(path).unlink()` after its existence was checked. */
    method Unlink(path: string)
      modifies this
      ensures files == old(files) - {path} && dirs == old(dirs)
    {
      files := files - {path};
    }

    /** `dir.mkdir(parents=True, exist_ok=True)`. */
    method MakeDir(dir: string)
      modifies this
      ensures dirs == old(dirs) + {dir} && files == old(files)
    {
      dirs := dirs + {dir};
    }

    /**
     * The collision loop of `save_voice_file`: starting from `dir / filename`,
     * while the candidate exists, append `_<counter>` to the current
     * candidate's stem (counter 1, 2, 3, ...). `passes` counts the iterations.
     */
    method FindFreePath(filename: string, dir: Dir) returns (path: string, ghost passes: nat)
      ensures path !in files && path !in dirs
      ensures path == FreePath(Taken(), dir, filename)
      ensures PathJoin(dir, filename) !in Taken() ==> path == PathJoin(dir, filename)
      ensures passes == Passes(Taken(), dir, filename) && passes <= |Taken()|
    {
      path := PathJoin(dir, filename);
      var counter := 1;
      ghost var name := filename;
      passes := 0;
      while Exists(path)
        invariant counter == passes + 1
        invariant counter == 1 ==> path == PathJoin(dir, filename)
        invariant counter > 1 ==> Plain(name) && path == Join(dir, name)
        invariant counter > 1 ==> Join(dir, FreeName(Taken(), dir, name, counter)) == FreePath(Taken(), dir, filename)
        invariant counter > 1 ==> passes + RetriesFrom(Taken(), dir, name, counter) == Passes(Taken(), dir, filename)
        decreases if counter == 1 then 1 else 0, |LongPaths(Taken(), |path|)|
      {
        var base := BaseName(path);
        var stem, suffix := Stem(base), Suffix(base);
        RetryStep(Taken(), dir, filename, path, name, counter);
        name := RetryName(base, counter);
        path := PathJoin(dir, stem + "_" + NatToString(counter) + suffix);
        counter := counter + 1;
        passes := passes + 1;
      }
      PassesBounded(Taken(), dir, filename);
    }

    /**
     * `save_voice_file`: creates `dir`, writes `content` to a path that
     * nothing exists at, and returns that path.
     */
    method SaveVoiceFile(content: Bytes, filename: string, dir: Dir) returns (path: string)
      modifies this
      ensures path == SavePath(old(files).Keys, old(dirs), dir, filename)
      ensures files == old(files)[path := content]
      ensures dirs == old(dirs) + {dir}
    {
      MakeDir(dir);
      assert Taken() == old(files).Keys + old(dirs) + {dir};
      ghost var passes;
      path, passes := FindFreePath(filename, dir);
      files := files[path := content];
    }
  }
}
