/** Slash-separated names, as strings.Split, strings.Replace and filepath.Join treat them. */
module Paths {

  /** Everything before the first slash. */
  function Head(s: string): string {
    if s == "" || s[0] == '/' then "" else [s[0]] + Head(s[1..])
  }

  lemma {:induction false} HeadIsPrefix(s: string)
    ensures Head(s) <= s && '/' !in Head(s)
    ensures |Head(s)| < |s| ==> s[|Head(s)|] == '/'
  {
    if s != "" && s[0] != '/' {
      HeadIsPrefix(s[1..]);
    }
  }

  /** strings.Split(s, "/"): never empty. */
  function Split(s: string): (segments: seq<string>)
    ensures segments != []
    decreases |s|
  {
    HeadIsPrefix(s);
    var head := Head(s);
    if |head| == |s| then [s] else [head] + Split(s[|head| + 1..])
  }

  /** strings.Replace(name, "\\", "/", -1). */
  function Canonical(s: string): (t: string)
    ensures |t| == |s|
    ensures forall i :: 0 <= i < |s| ==> t[i] == if s[i] == '\\' then '/' else s[i]
  {
    seq(|s|, i requires 0 <= i < |s| => if s[i] == '\\' then '/' else s[i])
  }

  function Segments(name: string): seq<string> {
    if name == "" then [] else Split(Canonical(name))
  }

  /** strings.Join(segments, "/"). */
  function JoinSegments(segments: seq<string>): string {
    if segments == [] then ""
    else if |segments| == 1 then segments[0]
    else segments[0] + "/" + JoinSegments(segments[1..])
  }

  /** A directory entry's name as the asset tree holds it. */
  predicate Proper(segment: string) {
    segment != "" && segment != "." && segment != ".." && '/' !in segment && '\\' !in segment
  }

  /** The segments that filepath.Clean keeps, given those kept so far. */
  function CleanSegments(rooted: bool, kept: seq<string>, segments: seq<string>): seq<string>
    decreases |segments|
  {
    if segments == [] then kept
    else
      var s, rest := segments[0], segments[1..];
      if s == "" || s == "." then CleanSegments(rooted, kept, rest)
      else if s != ".." then CleanSegments(rooted, kept + [s], rest)
      else if kept != [] && kept[|kept| - 1] != ".." then CleanSegments(rooted, kept[..|kept| - 1], rest)
      else CleanSegments(rooted, if rooted then kept else kept + [s], rest)
  }

  /** filepath.Clean on a Unix system. */
  function Clean(path: string): string {
    var rooted := path != "" && path[0] == '/';
    var cleaned := (if rooted then "/" else "") + JoinSegments(CleanSegments(rooted, [], Split(path)));
    if cleaned == "" then "." else cleaned
  }

  /** filepath.Join(name, child): leading empty elements are dropped, the rest is cleaned. */
  function Join(name: string, child: string): string {
    if name == "" && child == "" then ""
    else if name == "" then Clean(child)
    else Clean(name + "/" + child)
  }

  // ---------- what cleaning means ----------

  /** No empty or "." segment, and ".." only in front, in a rooted path not at all. */
  predicate Normal(rooted: bool, segments: seq<string>) {
    forall i :: 0 <= i < |segments| ==>
      && segments[i] != "" && segments[i] != "."
      && (segments[i] == ".." ==> !rooted && forall j :: 0 <= j < i ==> segments[j] == "..")
  }

  /** Cleaning brings every path into normal form. */
  lemma {:induction false} CleanIsNormal(rooted: bool, kept: seq<string>, segments: seq<string>)
    requires Normal(rooted, kept)
    ensures Normal(rooted, CleanSegments(rooted, kept, segments))
    decreases |segments|
  {
    if segments != [] {
      var s, rest := segments[0], segments[1..];
      if s == "" || s == "." {
        CleanIsNormal(rooted, kept, rest);
      } else if s != ".." {
        CleanIsNormal(rooted, kept + [s], rest);
      } else if kept != [] && kept[|kept| - 1] != ".." {
        CleanIsNormal(rooted, kept[..|kept| - 1], rest);
      } else {
        CleanIsNormal(rooted, if rooted then kept else kept + [s], rest);
      }
    }
  }

  /** A path in normal form stays as it is. */
  lemma {:induction false} NormalIsClean(rooted: bool, kept: seq<string>, segments: seq<string>)
    requires Normal(rooted, kept + segments)
    ensures CleanSegments(rooted, kept, segments) == kept + segments
    decreases |segments|
  {
    if segments != [] {
      assert (kept + segments)[|kept|] == segments[0];
      assert kept != [] ==> (kept + segments)[|kept| - 1] == kept[|kept| - 1];
      assert kept + [segments[0]] + segments[1..] == kept + segments;
      NormalIsClean(rooted, kept + [segments[0]], segments[1..]);
    }
  }

  /**
   Cleaning drops empty and "." segments anywhere, a segment that ".." follows together
   with it, and ".." at the root. With the two lemmas above that is all it does.
   */
  lemma {:induction false} CleanDrops(rooted: bool, kept: seq<string>, front: seq<string>, s: string, rest: seq<string>)
    ensures CleanSegments(rooted, kept, front + [""] + rest) == CleanSegments(rooted, kept, front + rest)
    ensures CleanSegments(rooted, kept, front + ["."] + rest) == CleanSegments(rooted, kept, front + rest)
    ensures s != "" && s != "." && s != ".." ==>
              CleanSegments(rooted, kept, front + [s, ".."] + rest) == CleanSegments(rooted, kept, front + rest)
    ensures CleanSegments(true, [], [".."] + rest) == CleanSegments(true, [], rest)
    decreases |front|
  {
    if front == [] {
      assert front + rest == rest;
      assert (front + [""] + rest)[1..] == rest && (front + ["."] + rest)[1..] == rest;
      assert (front + [s, ".."] + rest)[1..] == [".."] + rest;
      assert ([".."] + rest)[1..] == rest && (kept + [s])[..|kept|] == kept;
    } else {
      var f, back := front[0], front[1..];
      assert (front + rest)[1..] == back + rest;
      assert (front + [""] + rest)[1..] == back + [""] + rest;
      assert (front + ["."] + rest)[1..] == back + ["."] + rest;
      assert (front + [s, ".."] + rest)[1..] == back + [s, ".."] + rest;
      CleanDrops(rooted, kept, back, s, rest);
      CleanDrops(rooted, kept + [f], back, s, rest);
      if kept != [] { CleanDrops(rooted, kept[..|kept| - 1], back, s, rest); }
      assert ([".."] + rest)[1..] == rest;
    }
  }

  // ---------- splitting and joining ----------

  lemma {:induction false} SplitPlain(s: string)
    requires '/' !in s
    ensures Split(s) == [s]
  {
    HeadIsPrefix(s);
  }

  lemma {:induction false} HeadOf(a: string, rest: string)
    requires '/' !in a
    ensures Head(a + "/" + rest) == a
    decreases |a|
  {
    if a != "" {
      assert (a + "/" + rest)[1..] == a[1..] + "/" + rest;
      HeadOf(a[1..], rest);
    }
  }

  /** Splitting distributes over a slash. */
  lemma {:induction false} SplitConcat(a: string, b: string)
    ensures Split(a + "/" + b) == Split(a) + Split(b)
    decreases |a|
  {
    HeadIsPrefix(a);
    var head, s := Head(a), a + "/" + b;
    if |head| == |a| {
      HeadOf(a, b);
      assert s[|a| + 1..] == b;
    } else {
      var rest := a[|head| + 1..];
      assert a == head + "/" + rest;
      assert s == head + "/" + (rest + "/" + b);
      HeadOf(head, rest + "/" + b);
      assert s[|head| + 1..] == rest + "/" + b;
      SplitConcat(rest, b);
    }
  }

  /** A string without a slash is its only segment; any other starts with a segment and a slash. */
  lemma SplitCons(s: string) returns (head: string, rest: string)
    ensures '/' !in head
    ensures '/' !in s ==> Split(s) == [s]
    ensures '/' in s ==> s == head + "/" + rest && |rest| < |s| && Split(s) == [head] + Split(rest)
  {
    HeadIsPrefix(s);
    head := Head(s);
    rest := if |head| < |s| then s[|head| + 1..] else "";
  }

  /** Joining undoes splitting. */
  lemma {:induction false} JoinSplit(s: string)
    ensures JoinSegments(Split(s)) == s
    decreases |s|
  {
    var head, rest := SplitCons(s);
    hide Split;
    if '/' in s {
      JoinSplit(rest);
      assert ([head] + Split(rest))[1..] == Split(rest);
    }
  }

  /** A segment that filepath.Clean keeps as it is. */
  predicate Kept(segment: string) {
    segment != "" && segment != "." && segment != ".."
  }

  lemma {:induction false} CleanKeeps(rooted: bool, kept: seq<string>, segments: seq<string>)
    requires forall i :: 0 <= i < |segments| ==> Kept(segments[i])
    ensures CleanSegments(rooted, kept, segments) == kept + segments
    decreases |segments|
  {
    if segments != [] {
      CleanKeeps(rooted, kept + [segments[0]], segments[1..]);
    }
  }

  /** A path whose segments are all kept is already clean. */
  lemma CleanIsIdentity(path: string)
    requires forall i :: 0 <= i < |Split(path)| ==> Kept(Split(path)[i])
    ensures Clean(path) == path
  {
    NotRooted(path);
    CleanKeeps(false, [], Split(path));
    assert [] + Split(path) == Split(path);
    JoinSplit(path);
  }

  lemma NotRooted(path: string)
    requires Kept(Split(path)[0])
    ensures path != "" && path[0] != '/'
  {
    HeadIsPrefix(path);
  }

  lemma CanonicalConcat(a: string, b: string)
    ensures Canonical(a + "/" + b) == Canonical(a) + "/" + Canonical(b)
  {
  }

  lemma NotKeptStays(s: string)
    requires !Kept(s)
    ensures Split(Canonical(s)) == [s]
  {
    assert Canonical(s) == s;
    SplitPlain(s);
  }

  lemma KeptIfProper(s: string)
    requires '/' !in s && Proper(Split(Canonical(s))[0])
    ensures Kept(s)
  {
    if !Kept(s) {
      NotKeptStays(s);
    }
  }

  /** If a name's canonical segments are proper, then so far as Clean is concerned its own segments are. */
  lemma {:induction false} RawSegmentsKept(s: string)
    requires forall i :: 0 <= i < |Split(Canonical(s))| ==> Proper(Split(Canonical(s))[i])
    ensures forall i :: 0 <= i < |Split(s)| ==> Kept(Split(s)[i])
    decreases |s|
  {
    var head, rest := SplitCons(s);
    hide Split, Canonical, Proper, Kept;
    if '/' in s {
      CanonicalConcat(head, rest);
      SplitConcat(Canonical(head), Canonical(rest));
      var all, front, back := Split(Canonical(s)), Split(Canonical(head)), Split(Canonical(rest));
      assert all == front + back;
      assert front[0] == all[0] && forall i :: 0 <= i < |back| ==> back[i] == all[|front| + i];
      KeptIfProper(head);
      RawSegmentsKept(rest);
    } else {
      KeptIfProper(s);
    }
  }

  /** Joining a proper entry name to a name with proper segments appends one segment. */
  lemma JoinAppends(name: string, child: string)
    requires Proper(child)
    requires forall i :: 0 <= i < |Segments(name)| ==> Proper(Segments(name)[i])
    ensures Segments(Join(name, child)) == Segments(name) + [child]
    ensures Join(name, child) != ""
  {
    assert Canonical(child) == child;
    SplitPlain(child);
    if name == "" {
      CleanIsIdentity(child);
    } else {
      var segments := Split(Canonical(name));
      assert forall i :: 0 <= i < |segments| ==> segments[i] == Segments(name)[i];
      RawSegmentsKept(name);
      var path := name + "/" + child;
      SplitConcat(name, child);
      CleanIsIdentity(path);
      CanonicalConcat(name, child);
      SplitConcat(Canonical(name), child);
    }
  }

  /**
   An empty entry name would not extend a name at all: the recursion over the entries
   of a directory that has one would call itself with the same name.
   */
  lemma EmptySegmentGoesNowhere(name: string)
    requires forall i :: 0 <= i < |Split(name)| ==> Kept(Split(name)[i])
    ensures Join(name, "") == name
  {
    hide CleanSegments, JoinSegments, Split, Kept;
    NotRooted(name);
    SplitConcat(name, "");
    SplitPlain("");
    CleanKeepsThenEmpty([], Split(name));
    assert [] + Split(name) == Split(name);
    JoinSplit(name);
    assert (name + "/" + "")[0] == name[0];
  }

  lemma {:induction false} CleanKeepsThenEmpty(kept: seq<string>, segments: seq<string>)
    requires forall i :: 0 <= i < |segments| ==> Kept(segments[i])
    ensures CleanSegments(false, kept, segments + [""]) == kept + segments
    decreases |segments|
  {
    if segments != [] {
      assert (segments + [""])[1..] == segments[1..] + [""];
      CleanKeepsThenEmpty(kept + [segments[0]], segments[1..]);
    }
  }

  // ---------- clean paths ----------

  predicate SlashFree(segments: seq<string>) {
    forall i :: 0 <= i < |segments| ==> '/' !in segments[i]
  }

  lemma {:induction false} SplitSlashFree(s: string)
    ensures SlashFree(Split(s))
    decreases |s|
  {
    var head, rest := SplitCons(s);
    if '/' in s { SplitSlashFree(rest); }
  }

  lemma {:induction false} CleanSlashFree(rooted: bool, kept: seq<string>, segments: seq<string>)
    requires SlashFree(kept) && SlashFree(segments)
    ensures SlashFree(CleanSegments(rooted, kept, segments))
    decreases |segments|
  {
    if segments != [] {
      var s, rest := segments[0], segments[1..];
      if s == "" || s == "." {
        CleanSlashFree(rooted, kept, rest);
      } else if s != ".." {
        CleanSlashFree(rooted, kept + [s], rest);
      } else if kept != [] && kept[|kept| - 1] != ".." {
        CleanSlashFree(rooted, kept[..|kept| - 1], rest);
      } else {
        CleanSlashFree(rooted, if rooted then kept else kept + [s], rest);
      }
    }
  }

  /** Splitting undoes joining. */
  lemma {:induction false} SplitJoin(segments: seq<string>)
    requires segments != [] && SlashFree(segments)
    ensures Split(JoinSegments(segments)) == segments
    decreases |segments|
  {
    SplitPlain(segments[0]);
    if |segments| > 1 {
      SplitJoin(segments[1..]);
      SplitConcat(segments[0], JoinSegments(segments[1..]));
    }
  }

  /** What Clean gives is not empty, is rooted if the path was, and is clean itself. */
  lemma CleanIsIdempotent(path: string)
    ensures Clean(path) != ""
    ensures Clean(path)[0] == '/' <==> path != "" && path[0] == '/'
    ensures Clean(Clean(path)) == Clean(path)
  {
    hide Split, CleanSegments;
    var rooted := path != "" && path[0] == '/';
    var n := CleanSegments(rooted, [], Split(path));
    SplitSlashFree(path);
    CleanSlashFree(rooted, [], Split(path));
    CleanIsNormal(rooted, [], Split(path));
    assert [] + n == n;
    NormalIsClean(rooted, [], n);
    if n == [] {
      CleanOfNothing();
    } else {
      SplitJoin(n);
      assert JoinSegments(n)[0] == n[0][0];
      if rooted {
        CleanOfRooted(JoinSegments(n));
      } else {
        assert Clean(path) == JoinSegments(n) && n[0] != "" && '/' !in n[0];
        assert "" + JoinSegments(n) == JoinSegments(n);
      }
    }
  }

  lemma CleanOfNothing()
    ensures Clean(".") == "." && Clean("/") == "/"
  {
    SplitPlain(".");
    SplitPlain("");
    SplitConcat("", "");
    assert "" + "/" + "" == "/";
    assert CleanSegments(false, [], ["."]) == [];
    assert CleanSegments(true, [], ["", ""]) == CleanSegments(true, [], [""]) == [];
  }

  lemma CleanOfRooted(path: string)
    ensures Clean("/" + path) == "/" + JoinSegments(CleanSegments(true, [], Split(path)))
  {
    SplitPlain("");
    SplitConcat("", path);
    assert "" + "/" + path == "/" + path;
    CleanDrops(true, [], [], "", Split(path));
    assert [] + [""] + Split(path) == [""] + Split(path) && [] + Split(path) == Split(path);
  }

  /** What filepath.Join gives is clean, and empty only for empty parts. */
  lemma JoinIsClean(name: string, child: string)
    ensures Join(name, child) == "" <==> name == "" && child == ""
    ensures Join(name, child) != "" ==> Clean(Join(name, child)) == Join(name, child)
  {
    hide Clean;
    CleanIsIdempotent(child);
    CleanIsIdempotent(name + "/" + child);
  }

  // ---------- directories of names ----------

  /** The name up to its last slash, which is included. */
  function UpToSlash(name: string): string {
    if name == "" || name[|name| - 1] == '/' then name else UpToSlash(name[..|name| - 1])
  }

  /** filepath.Dir, which knows no backslashes. */
  function Dir(name: string): string {
    Clean(UpToSlash(name))
  }

  /** Where `_filePath` puts a name below the target directory, backslashes being slashes. */
  function Place(name: string): seq<string> {
    CleanSegments(false, [], Split(Canonical(name)))
  }

  function LastSegment(name: string): string {
    Split(name)[|Split(name)| - 1]
  }

  lemma {:induction false} UpToSlashOf(front: string, last: string)
    requires '/' !in last
    ensures UpToSlash(last) == ""
    ensures UpToSlash(front + "/" + last) == front + "/"
    decreases |last|
  {
    var name := front + "/" + last;
    if last != "" {
      assert name[..|name| - 1] == front + "/" + last[..|last| - 1];
      UpToSlashOf(front, last[..|last| - 1]);
    }
  }

  /** A name of several segments is a front, a slash and the last segment. */
  lemma {:induction false} SplitLast(name: string) returns (front: string)
    ensures '/' !in LastSegment(name)
    ensures |Split(name)| == 1 ==> LastSegment(name) == name
    ensures |Split(name)| > 1 ==>
              name == front + "/" + LastSegment(name) && Split(name) == Split(front) + [LastSegment(name)]
    decreases |name|
  {
    front := "";
    var head, rest := SplitCons(name);
    hide Split;
    if '/' in name {
      var inner := SplitLast(rest);
      SplitPlain(head);
      if |Split(rest)| == 1 {
        front := head;
      } else {
        front := head + "/" + inner;
        SplitConcat(head, inner);
        var last := LastSegment(rest);
        assert name == head + "/" + (inner + "/" + last) == front + "/" + last;
        assert Split(name) == [head] + (Split(inner) + [last]) == ([head] + Split(inner)) + [last];
      }
    }
  }

  lemma CanonicalSingle(s: string)
    requires '/' !in s
    ensures |Split(Canonical(s))| == 1 <==> '\\' !in s
  {
    var t := Canonical(s);
    HeadIsPrefix(t);
    if '\\' !in s {
      assert t == s;
    } else {
      var i :| 0 <= i < |s| && s[i] == '\\';
      assert t[i] == '/';
    }
  }

  /**
   For a name with proper segments, the directory that is made is a prefix of the name's
   place, and it is the parent exactly if the last separator of the name is a slash.
   */
  lemma DirPlace(name: string)
    requires forall i :: 0 <= i < |Split(Canonical(name))| ==> Proper(Split(Canonical(name))[i])
    ensures var path := Split(Canonical(name));
            && Place(name) == path
            && Place(Dir(name)) <= path && |Place(Dir(name))| < |path|
            && (|Place(Dir(name))| == |path| - 1 <==> '\\' !in LastSegment(name))
  {
    var path, last := Split(Canonical(name)), LastSegment(name);
    CleanKeeps(false, [], path);
    assert [] + path == path;
    var front := SplitLast(name);
    CanonicalSingle(last);
    if |Split(name)| == 1 {
      UpToSlashOf("", name);
      PlaceOfHere();
    } else {
      RawSegmentsKept(name);
      UpToSlashOf(front, last);
      assert forall i :: 0 <= i < |Split(front)| ==> Split(front)[i] == Split(name)[i];
      NotRooted(front);
      EmptySegmentGoesNowhere(front);
      assert front + "/" + "" == front + "/";
      CanonicalConcat(front, last);
      SplitConcat(Canonical(front), Canonical(last));
      var made := Split(Canonical(front));
      assert forall i :: 0 <= i < |made| ==> made[i] == path[i];
      CleanKeeps(false, [], made);
      assert [] + made == made;
    }
  }

  /** The directory of a single segment is the target itself. */
  lemma PlaceOfHere()
    ensures Place(Clean("")) == []
  {
    assert Split("") == [""] && CleanSegments(false, [], [""]) == [];
    assert Clean("") == ".";
    assert Canonical(".") == ".";
    SplitPlain(".");
  }

  /** A joined name ends with its entry. */
  lemma JoinEndsWith(name: string, child: string)
    requires Proper(child)
    requires forall i :: 0 <= i < |Segments(name)| ==> Proper(Segments(name)[i])
    ensures LastSegment(Join(name, child)) == child
  {
    SplitPlain(child);
    if name == "" {
      CleanIsIdentity(child);
    } else {
      var segments := Split(Canonical(name));
      assert forall i :: 0 <= i < |segments| ==> segments[i] == Segments(name)[i];
      RawSegmentsKept(name);
      SplitConcat(name, child);
      CleanIsIdentity(name + "/" + child);
    }
  }
}
