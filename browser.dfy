/**
 * The browser-side helpers of the file manager page: matching a folder
 * against the known links (`isSymlinked`), going one level up
 * (`navigateUp`), the breadcrumb (`updateBreadcrumb`) and the icon chosen for
 * a file (`getFileIcon`).
 */
module Browser {
  import opened Text
  import opened Disk
  import opened Listing

  // ---------------------------------------------------------------------------
  // isSymlinked (index.php:2368-2390)
  // ---------------------------------------------------------------------------

  /** No two backslashes in a row. */
  predicate NoRuns(s: string)
  {
    forall i :: 0 <= i < |s| - 1 ==> !(s[i] == Sep && s[i + 1] == Sep)
  }

  /** What normalisation leaves: no capital ASCII letter, no forward slash, no run of backslashes. */
  predicate Clean(s: string)
  {
    NoUpper(s) && '/' !in s && NoRuns(s)
  }

  /** `s.replace(/\\+/g, '\\')`: every run of backslashes becomes one. */
  function Collapse(s: string): (r: string)
    ensures NoRuns(r)
    ensures |r| <= |s|
    ensures (r == []) == (s == [])
    ensures r != [] ==> r[|r| - 1] == s[|s| - 1]
    ensures NoUpper(s) ==> NoUpper(r)
    ensures '/' !in s ==> '/' !in r
  {
    if |s| <= 1 then s
    else
      var init := Collapse(s[..|s| - 1]);
      if s[|s| - 1] == Sep && s[|s| - 2] == Sep then init else init + [s[|s| - 1]]
  }

  /** Collapsing changes nothing once there are no runs left. */
  lemma {:induction false} CollapseNoRuns(s: string)
    requires NoRuns(s)
    ensures Collapse(s) == s
  {
    if |s| > 1 {
      var init := s[..|s| - 1];
      assert NoRuns(init);
      CollapseNoRuns(init);
      assert !(s[|s| - 2] == Sep && s[|s| - 1] == Sep);
      assert s == init + [s[|s| - 1]];
    }
  }

  lemma LowerNoUpper(s: string)
    requires NoUpper(s)
    ensures Lower(s) == s
  {
  }

  lemma ReplaceAbsent(s: string)
    requires '/' !in s
    ensures Replace(s, '/', Sep) == s
  {
  }

  lemma LowerThenSlash(s: string)
    ensures NoUpper(Replace(Lower(s), '/', Sep))
    ensures '/' !in Replace(Lower(s), '/', Sep)
  {
    ReplaceRemoves(Lower(s), '/', Sep);
  }

  lemma SliceClean(s: string, a: nat, b: nat)
    requires Clean(s) && a <= b <= |s|
    ensures Clean(s[a..b])
  {
    var t := s[a..b];
    forall i | 0 <= i < |t| - 1 ensures !(t[i] == Sep && t[i + 1] == Sep) {
      assert t[i] == s[a + i] && t[i + 1] == s[a + i + 1];
    }
  }

  /** Trimming keeps a clean string clean and leaves nothing trimmable at either end. */
  lemma TrimClean(s: string, ws: char -> bool)
    requires Clean(s)
    ensures Clean(Trim(s, ws))
    ensures var r := Trim(s, ws); r == [] || (!ws(r[0]) && !ws(r[|r| - 1]))
  {
    TrimStartClean(s, ws);
    TrimEndClean(TrimStart(s, ws), ws);
    TrimmedEnds(s, ws);
  }

  lemma {:induction false} TrimStartClean(s: string, ws: char -> bool)
    requires Clean(s)
    ensures Clean(TrimStart(s, ws))
    decreases |s|
  {
    if s != [] && ws(s[0]) {
      SliceClean(s, 1, |s|);
      assert s[1..|s|] == s[1..];
      TrimStartClean(s[1..], ws);
    }
  }

  lemma {:induction false} TrimEndClean(s: string, ws: char -> bool)
    requires Clean(s)
    ensures Clean(TrimEnd(s, ws))
    decreases |s|
  {
    if s != [] && ws(s[|s| - 1]) {
      SliceClean(s, 0, |s| - 1);
      assert s[0..|s| - 1] == s[..|s| - 1];
      TrimEndClean(s[..|s| - 1], ws);
    }
  }

  lemma TrimmedEnds(s: string, ws: char -> bool)
    ensures var r := Trim(s, ws); r == [] || (!ws(r[0]) && !ws(r[|r| - 1]))
  {
    var front := TrimStart(s, ws);
    var r := TrimEnd(front, ws);
    assert r == [] || r[0] == front[0];
  }

  /** The spelling `isSymlinked` compares: lower case, backslashes only, no runs, trimmed. */
  function NormalizeLinkPath(s: string): (r: string)
    ensures Clean(r) && (r == [] || (!JsSpace(r[0]) && !JsSpace(r[|r| - 1])))
  {
    var collapsed := Collapse(Replace(Lower(s), '/', Sep));
    LowerThenSlash(s);
    TrimClean(collapsed, JsSpace);
    JsTrim(collapsed)
  }

  /** Trimming a string with nothing trimmable at either end changes nothing. */
  lemma TrimTrimmed(s: string, ws: char -> bool)
    requires s == [] || (!ws(s[0]) && !ws(s[|s| - 1]))
    ensures Trim(s, ws) == s
  {
    assert TrimStart(s, ws) == s;
  }

  /** Normalising twice is normalising once: `isSymlinked` can compare normalised paths. */
  lemma NormalizeIdempotent(s: string)
    ensures NormalizeLinkPath(NormalizeLinkPath(s)) == NormalizeLinkPath(s)
  {
    var r := NormalizeLinkPath(s);
    LowerNoUpper(r);
    ReplaceAbsent(r);
    CollapseNoRuns(r);
    TrimTrimmed(r, JsSpace);
  }

  /** The comparison ignores the case of ASCII letters and the kind of slash. */
  lemma NormalizeIgnoresCaseAndSlashes(s: string)
    ensures NormalizeLinkPath(Lower(s)) == NormalizeLinkPath(s)
    ensures NormalizeLinkPath(Replace(s, '/', Sep)) == NormalizeLinkPath(s)
  {
    assert Lower(Lower(s)) == Lower(s);
    assert Replace(Lower(Replace(s, '/', Sep)), '/', Sep) == Replace(Lower(s), '/', Sep);
  }

  /** A link the lookup may answer with: it has a target and the target matches. */
  predicate MatchesTarget(link: SymlinkInfo, normalized: string)
  {
    link.target != "" && link.target != "N/A" && NormalizeLinkPath(link.target) == normalized
  }

  /** The name of the first link in `links` that `m` accepts, if any. */
  function FirstMatch(links: seq<SymlinkInfo>, m: SymlinkInfo -> bool): Option<string>
  {
    if links == [] then None
    else if m(links[0]) then Some(links[0].name)
    else FirstMatch(links[1..], m)
  }

  /** The name of the first link in `links` whose target matches, if any. */
  function FirstLinkTo(links: seq<SymlinkInfo>, normalized: string): Option<string>
  {
    FirstMatch(links, link => MatchesTarget(link, normalized))
  }

  lemma {:induction false} FirstMatchNone(links: seq<SymlinkInfo>, m: SymlinkInfo -> bool)
    ensures FirstMatch(links, m).None? <==> forall i :: 0 <= i < |links| ==> !m(links[i])
  {
    if links != [] {
      FirstMatchNone(links[1..], m);
      assert forall i :: 0 < i < |links| ==> links[i] == links[1..][i - 1];
    }
  }

  lemma {:induction false} FirstMatchFirst(links: seq<SymlinkInfo>, m: SymlinkInfo -> bool)
    requires FirstMatch(links, m).Some?
    ensures exists i :: 0 <= i < |links| && m(links[i]) && FirstMatch(links, m).value == links[i].name &&
                        forall j :: 0 <= j < i ==> !m(links[j])
  {
    if !m(links[0]) {
      var rest := links[1..];
      FirstMatchFirst(rest, m);
      var i :| 0 <= i < |rest| && m(rest[i]) && FirstMatch(rest, m).value == rest[i].name &&
               forall j :: 0 <= j < i ==> !m(rest[j]);
      assert links[i + 1] == rest[i];
      assert forall j :: 0 < j < i + 1 ==> links[j] == rest[j - 1];
    } else {
      assert m(links[0]) && FirstMatch(links, m).value == links[0].name;
    }
  }

  lemma FirstLinkToStep(links: seq<SymlinkInfo>, normalized: string, i: nat)
    requires i < |links|
    ensures FirstLinkTo(links[i..], normalized) ==
            if MatchesTarget(links[i], normalized) then Some(links[i].name) else FirstLinkTo(links[i + 1..], normalized)
  {
    assert links[i..][0] == links[i];
    assert links[i..][1..] == links[i + 1..];
  }

  /** `FirstLinkTo` answers with nothing exactly when no link matches. */
  lemma FirstLinkToNone(links: seq<SymlinkInfo>, normalized: string)
    ensures FirstLinkTo(links, normalized).None? <==> forall i :: 0 <= i < |links| ==> !MatchesTarget(links[i], normalized)
  {
    FirstMatchNone(links, link => MatchesTarget(link, normalized));
  }

  /** When `FirstLinkTo` answers, it is with the name of the first matching link. */
  lemma FirstLinkToFirst(links: seq<SymlinkInfo>, normalized: string)
    requires FirstLinkTo(links, normalized).Some?
    ensures exists i :: 0 <= i < |links| && MatchesTarget(links[i], normalized) &&
                        FirstLinkTo(links, normalized).value == links[i].name &&
                        forall j :: 0 <= j < i ==> !MatchesTarget(links[j], normalized)
  {
    FirstMatchFirst(links, link => MatchesTarget(link, normalized));
  }

  /** `isSymlinked(path)`: the name of the first link whose target is `path`; None stands for `false`. */
  method IsSymlinked(links: seq<SymlinkInfo>, path: string) returns (r: Option<string>)
    ensures r == FirstLinkTo(links, NormalizeLinkPath(path))
  {
    if |links| == 0 {
      return None;
    }
    var normalizedPath := NormalizeLinkPath(path);
    var i := 0;
    while i < |links|
      invariant 0 <= i <= |links|
      invariant FirstLinkTo(links[i..], normalizedPath) == FirstLinkTo(links, normalizedPath)
    {
      var link := links[i];
      FirstLinkToStep(links, normalizedPath, i);
      if link.target == "" || link.target == "N/A" {
        i := i + 1;
        continue;
      }
      var normalizedTarget := NormalizeLinkPath(link.target);
      if normalizedTarget == normalizedPath {
        return Some(link.name);
      }
      i := i + 1;
    }
    return None;
  }

  // ---------------------------------------------------------------------------
  // navigateUp (index.php:2904-2911)
  // ---------------------------------------------------------------------------

  /** The folder `navigateUp` loads, or None when it stays put because the parent would be empty. */
  function NavigateUp(currentPath: string): (r: Option<string>)
    ensures r.Some? ==> r.value != [] && Sep in currentPath
    ensures r.Some? ==> var last := Split(currentPath, Sep)[|Split(currentPath, Sep)| - 1];
                        currentPath == r.value + [Sep] + last && Sep !in last
    ensures Sep !in currentPath ==> r.None?
  {
    var parts := Split(currentPath, Sep);
    var parentPath := Join(parts[..|parts| - 1], Sep);
    if Sep !in currentPath then
      SplitFree(currentPath, Sep);
      None
    else if |parts| >= 2 && |parentPath| > 0 then
      JoinSplit(currentPath, Sep);
      JoinSnoc(parts[..|parts| - 1], parts[|parts| - 1], Sep);
      assert parts == parts[..|parts| - 1] + [parts[|parts| - 1]];
      Some(parentPath)
    else
      None
  }

  /** Going up from `dir\name` lands in `dir`. */
  lemma {:induction false} NavigateUpToParent(dir: string, name: string)
    requires dir != [] && Sep !in name
    ensures NavigateUp(dir + [Sep] + name) == Some(dir)
  {
    var p := dir + [Sep] + name;
    var parts := Split(dir, Sep);
    SplitJoinAppend(dir, name);
    JoinSplit(dir, Sep);
  }

  /** Splitting `dir\name` gives the pieces of `dir` followed by `name`. */
  lemma {:induction false} SplitJoinAppend(dir: string, name: string)
    requires Sep !in name
    ensures Split(dir + [Sep] + name, Sep) == Split(dir, Sep) + [name]
    decreases |dir|
  {
    if dir == [] {
      SplitFree(name, Sep);
      assert [] + [Sep] + name == [Sep] + name;
      assert ([Sep] + name)[1..] == name;
    } else {
      var p := dir + [Sep] + name;
      SplitJoinAppend(dir[1..], name);
      assert p[1..] == dir[1..] + [Sep] + name;
      assert p[0] == dir[0];
      var tail := Split(dir[1..], Sep);
      var rest := Split(p[1..], Sep);
      assert rest == tail + [name];
      if dir[0] != Sep {
        assert rest[0] == tail[0];
        assert rest[1..] == tail[1..] + [name];
        assert Split(p, Sep) == [[dir[0]] + tail[0]] + (tail[1..] + [name]);
        assert Split(dir, Sep) == [[dir[0]] + tail[0]] + tail[1..];
      }
    }
  }

  // ---------------------------------------------------------------------------
  // updateBreadcrumb (index.php:2914-2934)
  // ---------------------------------------------------------------------------

  /**
   * Reads the body of a single-quoted JavaScript string literal: None when an
   * unescaped quote or a line break ends the literal early, or an escape is
   * one the breadcrumb never writes.
   */
  function DecodeJsLiteral(s: string): (r: Option<string>)
    decreases |s|
  {
    if s == [] then Some([])
    else if s[0] == '\'' || s[0] == '\n' || s[0] == '\r' then None
    else if s[0] == '\\' then
      if |s| >= 2 && (s[1] == '\\' || s[1] == '\'') then
        match DecodeJsLiteral(s[2..])
        case None => None
        case Some(t) => Some([s[1]] + t)
      else None
    else
      match DecodeJsLiteral(s[1..])
      case None => None
      case Some(t) => Some([s[0]] + t)
  }

  /** The escape as written: each backslash doubled, nothing else touched. */
  function EscapeAsWritten(p: string): (r: string)
    ensures |r| >= |p|
  {
    if p == [] then []
    else (if p[0] == '\\' then "\\\\" else [p[0]]) + EscapeAsWritten(p[1..])
  }

  /** The escape a single-quoted literal needs: backslashes and quotes. */
  function EscapeJs(p: string): (r: string)
    ensures |r| >= |p|
  {
    if p == [] then []
    else (if p[0] == '\\' || p[0] == '\'' then ['\\', p[0]] else [p[0]]) + EscapeJs(p[1..])
  }

  lemma DecodeConcat(e: string, rest: string, c: char)
    requires e == ['\\', c] && (c == '\\' || c == '\'')
    ensures DecodeJsLiteral(e + rest) == (match DecodeJsLiteral(rest) case None => None case Some(t) => Some([c] + t))
  {
    assert (e + rest)[2..] == rest;
  }

  lemma DecodePlain(c: char, rest: string)
    requires c != '\'' && c != '\n' && c != '\r' && c != '\\'
    ensures DecodeJsLiteral([c] + rest) == (match DecodeJsLiteral(rest) case None => None case Some(t) => Some([c] + t))
  {
    assert ([c] + rest)[1..] == rest;
  }

  /** The literal the breadcrumb writes reads back as the path, for any path without line breaks. */
  lemma {:induction false} EscapeJsRoundTrip(p: string)
    requires '\n' !in p && '\r' !in p
    ensures DecodeJsLiteral(EscapeJs(p)) == Some(p)
  {
    if p != [] {
      EscapeJsRoundTrip(p[1..]);
      if p[0] == '\\' || p[0] == '\'' {
        DecodeConcat(['\\', p[0]], EscapeJs(p[1..]), p[0]);
      } else {
        DecodePlain(p[0], EscapeJs(p[1..]));
      }
      assert p == [p[0]] + p[1..];
    }
  }

  /** Without a quote in the path the two escapes agree. */
  lemma {:induction false} EscapesAgreeWithoutQuote(p: string)
    requires '\'' !in p
    ensures EscapeAsWritten(p) == EscapeJs(p)
  {
    if p != [] {
      EscapesAgreeWithoutQuote(p[1..]);
    }
  }

  /** As written, a folder with a quote in its name gives a literal that ends early. */
  lemma {:induction false} EscapeAsWrittenBreaksOnQuote(p: string)
    requires '\'' in p
    ensures DecodeJsLiteral(EscapeAsWritten(p)) == None
  {
    if p[0] == '\'' {
    } else {
      EscapeAsWrittenBreaksOnQuote(p[1..]);
      if p[0] == '\\' {
        DecodeConcat(['\\', '\\'], EscapeAsWritten(p[1..]), '\\');
      } else if p[0] != '\n' && p[0] != '\r' {
        DecodePlain(p[0], EscapeAsWritten(p[1..]));
      }
    }
  }

  /** The folder `O'Brien` in the web root. */
  lemma EscapeAsWrittenExample()
    ensures DecodeJsLiteral(EscapeAsWritten("C:\\xampp\\htdocs\\O'Brien")) == None
  {
    EscapeAsWrittenBreaksOnQuote("C:\\xampp\\htdocs\\O'Brien");
  }

  /** One breadcrumb entry: its caption and, for all but the last, the literal its link passes to `navigateTo`. */
  datatype Crumb = Crumb(caption: string, link: Option<string>)

  /** Which escape puts a link into its literal: line 2924's, or the one that also covers quotes. */
  datatype Escaping = AsWritten | Corrected
  {
    function Apply(p: string): string
    {
      match this
      case AsWritten => EscapeAsWritten(p)
      case Corrected => EscapeJs(p)
    }
  }

  /** The entry for piece `i` of a path split at backslashes. */
  function CrumbAt(parts: seq<string>, i: nat, escape: Escaping): Crumb
    requires i < |parts|
  {
    Crumb(parts[i], if i == |parts| - 1 then None else Some(escape.Apply(Join(parts[..i + 1], Sep))))
  }

  /** The breadcrumb for `path`, one entry per piece. */
  function BreadcrumbOf(path: string, escape: Escaping): seq<Crumb>
  {
    var parts := Split(path, Sep);
    seq(|parts|, i requires 0 <= i < |parts| => CrumbAt(parts, i, escape))
  }

  /** `updateBreadcrumb(path)` as written: the links escape backslashes only. */
  method UpdateBreadcrumb(path: string) returns (crumbs: seq<Crumb>)
    ensures crumbs == BreadcrumbOf(path, AsWritten)
  {
    var parts := Split(path, Sep);
    ghost var all := BreadcrumbOf(path, AsWritten);
    crumbs := [];
    var currentPath := "";
    var index := 0;
    while index < |parts|
      invariant 0 <= index <= |parts|
      invariant currentPath == Join(parts[..index], Sep)
      invariant crumbs == all[..index]
    {
      var part := parts[index];
      assert parts[..index + 1] == parts[..index] + [part];
      if index > 0 {
        currentPath := currentPath + [Sep];
        JoinSnoc(parts[..index], part, Sep);
      } else {
        assert parts[..index + 1] == [part];
      }
      currentPath := currentPath + part;
      assert currentPath == Join(parts[..index + 1], Sep);
      var escapedPath := EscapeAsWritten(currentPath);
      var crumb := if index == |parts| - 1 then Crumb(part, None) else Crumb(part, Some(escapedPath));
      assert all[index] == CrumbAt(parts, index, AsWritten);
      assert crumb == all[index];
      crumbs := crumbs + [crumb];
      assert all[..index + 1] == all[..index] + [all[index]];
      index := index + 1;
    }
  }

  /**
   * What the corrected breadcrumb shows: one entry per piece of the path with
   * that piece as caption, a link on every entry but the last, and each link
   * a literal that reads back as the path up to and including its piece.
   */
  lemma {:induction false} BreadcrumbLinks(path: string)
    requires '\n' !in path && '\r' !in path
    ensures var parts := Split(path, Sep);
            var crumbs := BreadcrumbOf(path, Corrected);
            && |crumbs| == |parts|
            && (forall i :: 0 <= i < |crumbs| ==> crumbs[i].caption == parts[i])
            && (forall i :: 0 <= i < |crumbs| ==> (crumbs[i].link.None? <==> i == |crumbs| - 1))
            && (forall i :: 0 <= i < |crumbs| - 1 ==>
                  (DecodeJsLiteral(crumbs[i].link.value) == Some(Join(parts[..i + 1], Sep)) &&
                   Join(parts[..i + 1], Sep) <= path))
  {
    var parts := Split(path, Sep);
    var crumbs := BreadcrumbOf(path, Corrected);
    forall i | 0 <= i < |crumbs| - 1
      ensures DecodeJsLiteral(crumbs[i].link.value) == Some(Join(parts[..i + 1], Sep))
      ensures Join(parts[..i + 1], Sep) <= path
    {
      assert crumbs[i] == CrumbAt(parts, i, Corrected);
      CrumbLinkReadsBack(path, i);
    }
  }

  /** The corrected link of entry `i` reads back as the first `i + 1` pieces, which spell a prefix of the path. */
  lemma CrumbLinkReadsBack(path: string, i: nat)
    requires '\n' !in path && '\r' !in path
    requires i < |Split(path, Sep)| - 1
    ensures var parts := Split(path, Sep);
            && DecodeJsLiteral(CrumbAt(parts, i, Corrected).link.value) == Some(Join(parts[..i + 1], Sep))
            && Join(parts[..i + 1], Sep) <= path
  {
    var parts := Split(path, Sep);
    JoinPrefix(path, i + 1);
    var prefix := Join(parts[..i + 1], Sep);
    PrefixNoBreaks(prefix, path);
    EscapeJsRoundTrip(prefix);
  }

  /** A prefix of a path without line breaks has none either. */
  lemma PrefixNoBreaks(p: string, s: string)
    requires p <= s && '\n' !in s && '\r' !in s
    ensures '\n' !in p && '\r' !in p
  {
    PrefixLacks(p, s, '\n');
    PrefixLacks(p, s, '\r');
  }

  lemma PrefixLacks(p: string, s: string, c: char)
    requires p <= s && c !in s
    ensures c !in p
  {
    forall k | 0 <= k < |p| ensures p[k] != c {
      assert s[k] == p[k];
    }
  }

  /** Without a quote in the path, the breadcrumb as written is the corrected one. */
  lemma BreadcrumbAsWrittenAgrees(path: string)
    requires '\'' !in path
    ensures BreadcrumbOf(path, AsWritten) == BreadcrumbOf(path, Corrected)
  {
    var parts := Split(path, Sep);
    var written := BreadcrumbOf(path, AsWritten);
    var corrected := BreadcrumbOf(path, Corrected);
    forall i | 0 <= i < |parts| ensures written[i] == corrected[i] {
      if i < |parts| - 1 {
        JoinPrefix(path, i + 1);
        PrefixLacks(Join(parts[..i + 1], Sep), path, '\'');
        EscapesAgreeWithoutQuote(Join(parts[..i + 1], Sep));
      }
    }
  }

  /**
   * The breadcrumb as written, for a path without quotes or line breaks: each
   * link reads back as the path up to and including its piece.
   */
  lemma BreadcrumbAsWrittenLinks(path: string)
    requires '\'' !in path && '\n' !in path && '\r' !in path
    ensures var parts := Split(path, Sep);
            var crumbs := BreadcrumbOf(path, AsWritten);
            forall i :: 0 <= i < |crumbs| - 1 ==> DecodeJsLiteral(crumbs[i].link.value) == Some(Join(parts[..i + 1], Sep))
  {
    BreadcrumbAsWrittenAgrees(path);
    BreadcrumbLinks(path);
  }

  /** As written, a link whose prefix holds a quote is a literal that ends early. */
  lemma BreadcrumbAsWrittenBreaks(path: string, i: nat)
    requires i < |Split(path, Sep)| - 1
    requires '\'' in Join(Split(path, Sep)[..i + 1], Sep)
    ensures DecodeJsLiteral(BreadcrumbOf(path, AsWritten)[i].link.value) == None
  {
    var parts := Split(path, Sep);
    assert BreadcrumbOf(path, AsWritten)[i] == CrumbAt(parts, i, AsWritten);
    EscapeAsWrittenBreaksOnQuote(Join(parts[..i + 1], Sep));
  }

  /** The last entry's caption is the final piece: the whole path is the last entry's prefix. */
  lemma BreadcrumbEndsAtPath(path: string)
    ensures var parts := Split(path, Sep); Join(parts[..|parts|], Sep) == path
  {
    var parts := Split(path, Sep);
    assert parts[..|parts|] == parts;
    JoinSplit(path, Sep);
  }

  /** The first `n` pieces of a split, joined again, spell a prefix of the string. */
  lemma JoinPrefix(s: string, n: nat)
    requires 1 <= n <= |Split(s, Sep)|
    ensures Join(Split(s, Sep)[..n], Sep) <= s
  {
    var parts := Split(s, Sep);
    JoinSplit(s, Sep);
    JoinAppendPrefix(parts[..n], parts[n..]);
    assert parts == parts[..n] + parts[n..];
  }

  lemma {:induction false} JoinAppendPrefix(xs: seq<string>, ys: seq<string>)
    requires |xs| >= 1
    ensures Join(xs, Sep) <= Join(xs + ys, Sep)
    decreases |ys|
  {
    if ys == [] {
      assert xs + ys == xs;
    } else {
      var init := ys[..|ys| - 1];
      var y := ys[|ys| - 1];
      JoinAppendPrefix(xs, init);
      JoinSnoc(xs + init, y, Sep);
      assert xs + ys == (xs + init) + [y];
      var a := Join(xs, Sep);
      var b := Join(xs + init, Sep);
      assert Join(xs + ys, Sep) == b + [Sep] + y;
      assert b <= b + [Sep] + y;
    }
  }

  // ---------------------------------------------------------------------------
  // getFileIcon (index.php:2202-2365)
  // ---------------------------------------------------------------------------

  /** A Bootstrap Icons glyph class and a colour class, written into the page as `glyph tone`. */
  datatype Icon = Icon(glyph: string, tone: string)
  {
    function Class(): (c: string)
      ensures ' ' in c
    {
      glyph + " " + tone
    }
  }

  const FolderIcon: Icon := Icon("bi-folder-fill", "text-warning")
  const DefaultIcon: Icon := Icon("bi-file-earmark", "text-secondary")

  /**
   * The own keys of `iconMap`, looked up by lower-cased extension, as written.
   * The table's keys are distinct, so taking its sections one after the other
   * finds the same entry as the single object literal. No key is the name of
   * an inherited `Object.prototype` member.
   */
  function ExtensionIcon(ext: string): (r: Option<Icon>)
    ensures r.Some? ==> ext != [] && ext !in PrototypeMembers
    ensures ext == "DS_Store" ==> r == Some(Icon("bi-file-earmark", "text-muted"))
  {
    if WebFileIcon(ext).Some? then WebFileIcon(ext)
    else if LanguageIcon(ext).Some? then LanguageIcon(ext)
    else if DatabaseIcon(ext).Some? then DatabaseIcon(ext)
    else if ConfigIcon(ext).Some? then ConfigIcon(ext)
    else if DocumentIcon(ext).Some? then DocumentIcon(ext)
    else if ImageIcon(ext).Some? then ImageIcon(ext)
    else if VideoIcon(ext).Some? then VideoIcon(ext)
    else if AudioIcon(ext).Some? then AudioIcon(ext)
    else if ArchiveIcon(ext).Some? then ArchiveIcon(ext)
    else if ExecutableIcon(ext).Some? then ExecutableIcon(ext)
    else if FontIcon(ext).Some? then FontIcon(ext)
    else if OtherIcon(ext).Some? then OtherIcon(ext)
    else None
  }

  /** The `iconMap` entries for web files (index.php:2210-2222). */
  function WebFileIcon(ext: string): (r: Option<Icon>)
    ensures r.Some? ==> ext != [] && ext !in PrototypeMembers
  {
    match ext
    case "html" => Some(Icon("bi-filetype-html", "text-danger"))
    case "htm" => Some(Icon("bi-filetype-html", "text-danger"))
    case "css" => Some(Icon("bi-filetype-css", "text-info"))
    case "scss" => Some(Icon("bi-filetype-scss", "text-pink"))
    case "sass" => Some(Icon("bi-filetype-sass", "text-pink"))
    case "js" => Some(Icon("bi-filetype-js", "text-warning"))
    case "jsx" => Some(Icon("bi-filetype-jsx", "text-info"))
    case "ts" => Some(Icon("bi-filetype-tsx", "text-primary"))
    case "tsx" => Some(Icon("bi-filetype-tsx", "text-primary"))
    case "json" => Some(Icon("bi-filetype-json", "text-warning"))
    case "xml" => Some(Icon("bi-filetype-xml", "text-success"))
    case "svg" => Some(Icon("bi-filetype-svg", "text-warning"))
    case _ => None
  }

  /** The `iconMap` entries for programming languages (index.php:2224-2242). */
  function LanguageIcon(ext: string): (r: Option<Icon>)
    ensures r.Some? ==> ext != [] && ext !in PrototypeMembers
  {
    match ext
    case "php" => Some(Icon("bi-filetype-php", "text-primary"))
    case "py" => Some(Icon("bi-filetype-py", "text-warning"))
    case "java" => Some(Icon("bi-filetype-java", "text-danger"))
    case "c" => Some(Icon("bi-file-earmark-code", "text-primary"))
    case "cpp" => Some(Icon("bi-file-earmark-code", "text-primary"))
    case "cs" => Some(Icon("bi-filetype-cs", "text-success"))
    case "rb" => Some(Icon("bi-filetype-rb", "text-danger"))
    case "go" => Some(Icon("bi-file-earmark-code", "text-info"))
    case "rs" => Some(Icon("bi-file-earmark-code", "text-warning"))
    case "swift" => Some(Icon("bi-file-earmark-code", "text-danger"))
    case "kt" => Some(Icon("bi-file-earmark-code", "text-purple"))
    case "r" => Some(Icon("bi-file-earmark-code", "text-primary"))
    case "pl" => Some(Icon("bi-file-earmark-code", "text-info"))
    case "sh" => Some(Icon("bi-filetype-sh", "text-success"))
    case "bash" => Some(Icon("bi-filetype-sh", "text-success"))
    case "ps1" => Some(Icon("bi-terminal", "text-primary"))
    case "bat" => Some(Icon("bi-filetype-exe", "text-secondary"))
    case "cmd" => Some(Icon("bi-terminal", "text-secondary"))
    case _ => None
  }

  /** The `iconMap` entries for databases (index.php:2244-2247). */
  function DatabaseIcon(ext: string): (r: Option<Icon>)
    ensures r.Some? ==> ext != [] && ext !in PrototypeMembers
  {
    match ext
    case "sql" => Some(Icon("bi-filetype-sql", "text-warning"))
    case "db" => Some(Icon("bi-database", "text-primary"))
    case "sqlite" => Some(Icon("bi-database", "text-primary"))
    case _ => None
  }

  /** The `iconMap` entries for configuration files (index.php:2249-2261). */
  function ConfigIcon(ext: string): (r: Option<Icon>)
    ensures r.Some? ==> ext != [] && ext !in PrototypeMembers
  {
    match ext
    case "yml" => Some(Icon("bi-filetype-yml", "text-danger"))
    case "yaml" => Some(Icon("bi-filetype-yml", "text-danger"))
    case "toml" => Some(Icon("bi-file-earmark-text", "text-warning"))
    case "ini" => Some(Icon("bi-gear", "text-secondary"))
    case "conf" => Some(Icon("bi-gear", "text-secondary"))
    case "config" => Some(Icon("bi-gear", "text-secondary"))
    case "env" => Some(Icon("bi-gear-fill", "text-warning"))
    case "gitignore" => Some(Icon("bi-git", "text-danger"))
    case "dockerignore" => Some(Icon("bi-file-earmark-text", "text-primary"))
    case "editorconfig" => Some(Icon("bi-gear", "text-secondary"))
    case "eslintrc" => Some(Icon("bi-file-earmark-text", "text-purple"))
    case "prettierrc" => Some(Icon("bi-file-earmark-text", "text-pink"))
    case _ => None
  }

  /** The `iconMap` entries for documentation (index.php:2263-2273). */
  function DocumentIcon(ext: string): (r: Option<Icon>)
    ensures r.Some? ==> ext != [] && ext !in PrototypeMembers
  {
    match ext
    case "md" => Some(Icon("bi-filetype-md", "text-primary"))
    case "mdx" => Some(Icon("bi-filetype-mdx", "text-primary"))
    case "txt" => Some(Icon("bi-filetype-txt", "text-secondary"))
    case "pdf" => Some(Icon("bi-filetype-pdf", "text-danger"))
    case "doc" => Some(Icon("bi-filetype-doc", "text-primary"))
    case "docx" => Some(Icon("bi-filetype-docx", "text-primary"))
    case "xls" => Some(Icon("bi-filetype-xls", "text-success"))
    case "xlsx" => Some(Icon("bi-filetype-xlsx", "text-success"))
    case "ppt" => Some(Icon("bi-filetype-ppt", "text-danger"))
    case "pptx" => Some(Icon("bi-filetype-pptx", "text-danger"))
    case _ => None
  }

  /** The `iconMap` entries for images (index.php:2275-2285). */
  function ImageIcon(ext: string): (r: Option<Icon>)
    ensures r.Some? ==> ext != [] && ext !in PrototypeMembers
  {
    match ext
    case "jpg" => Some(Icon("bi-filetype-jpg", "text-success"))
    case "jpeg" => Some(Icon("bi-filetype-jpg", "text-success"))
    case "png" => Some(Icon("bi-filetype-png", "text-info"))
    case "gif" => Some(Icon("bi-filetype-gif", "text-warning"))
    case "bmp" => Some(Icon("bi-filetype-bmp", "text-purple"))
    case "ico" => Some(Icon("bi-file-earmark-image", "text-info"))
    case "webp" => Some(Icon("bi-file-earmark-image", "text-success"))
    case "tiff" => Some(Icon("bi-filetype-tiff", "text-secondary"))
    case "psd" => Some(Icon("bi-filetype-psd", "text-info"))
    case "ai" => Some(Icon("bi-filetype-ai", "text-warning"))
    case _ => None
  }

  /** The `iconMap` entries for videos (index.php:2287-2294). */
  function VideoIcon(ext: string): (r: Option<Icon>)
    ensures r.Some? ==> ext != [] && ext !in PrototypeMembers
  {
    match ext
    case "mp4" => Some(Icon("bi-filetype-mp4", "text-danger"))
    case "avi" => Some(Icon("bi-file-earmark-play", "text-danger"))
    case "mov" => Some(Icon("bi-filetype-mov", "text-danger"))
    case "wmv" => Some(Icon("bi-file-earmark-play", "text-primary"))
    case "flv" => Some(Icon("bi-file-earmark-play", "text-danger"))
    case "mkv" => Some(Icon("bi-file-earmark-play", "text-purple"))
    case "webm" => Some(Icon("bi-file-earmark-play", "text-success"))
    case _ => None
  }

  /** The `iconMap` entries for audio (index.php:2296-2302). */
  function AudioIcon(ext: string): (r: Option<Icon>)
    ensures r.Some? ==> ext != [] && ext !in PrototypeMembers
  {
    match ext
    case "mp3" => Some(Icon("bi-filetype-mp3", "text-success"))
    case "wav" => Some(Icon("bi-filetype-wav", "text-primary"))
    case "aac" => Some(Icon("bi-filetype-aac", "text-warning"))
    case "flac" => Some(Icon("bi-file-earmark-music", "text-info"))
    case "ogg" => Some(Icon("bi-file-earmark-music", "text-secondary"))
    case "m4a" => Some(Icon("bi-filetype-m4p", "text-danger"))
    case _ => None
  }

  /** The `iconMap` entries for archives (index.php:2304-2310). */
  function ArchiveIcon(ext: string): (r: Option<Icon>)
    ensures r.Some? ==> ext != [] && ext !in PrototypeMembers
  {
    match ext
    case "zip" => Some(Icon("bi-file-earmark-zip", "text-warning"))
    case "rar" => Some(Icon("bi-file-earmark-zip", "text-purple"))
    case "7z" => Some(Icon("bi-file-earmark-zip", "text-secondary"))
    case "tar" => Some(Icon("bi-file-earmark-zip", "text-secondary"))
    case "gz" => Some(Icon("bi-file-earmark-zip", "text-info"))
    case "bz2" => Some(Icon("bi-file-earmark-zip", "text-primary"))
    case _ => None
  }

  /** The `iconMap` entries for executables (index.php:2312-2317). */
  function ExecutableIcon(ext: string): (r: Option<Icon>)
    ensures r.Some? ==> ext != [] && ext !in PrototypeMembers
  {
    match ext
    case "exe" => Some(Icon("bi-filetype-exe", "text-danger"))
    case "msi" => Some(Icon("bi-file-earmark-binary", "text-danger"))
    case "app" => Some(Icon("bi-file-earmark-binary", "text-primary"))
    case "deb" => Some(Icon("bi-file-earmark-binary", "text-warning"))
    case "rpm" => Some(Icon("bi-file-earmark-binary", "text-danger"))
    case _ => None
  }

  /** The `iconMap` entries for fonts (index.php:2319-2324). */
  function FontIcon(ext: string): (r: Option<Icon>)
    ensures r.Some? ==> ext != [] && ext !in PrototypeMembers
  {
    match ext
    case "ttf" => Some(Icon("bi-filetype-ttf", "text-secondary"))
    case "otf" => Some(Icon("bi-filetype-otf", "text-secondary"))
    case "woff" => Some(Icon("bi-filetype-woff", "text-info"))
    case "woff2" => Some(Icon("bi-filetype-woff", "text-info"))
    case "eot" => Some(Icon("bi-filetype-eot", "text-primary"))
    case _ => None
  }

  /** The `iconMap` entries for other files (index.php:2326-2332). */
  function OtherIcon(ext: string): (r: Option<Icon>)
    ensures r.Some? ==> ext != [] && ext !in PrototypeMembers
  {
    match ext
    case "lock" => Some(Icon("bi-lock-fill", "text-warning"))
    case "log" => Some(Icon("bi-file-earmark-text", "text-secondary"))
    case "bak" => Some(Icon("bi-file-earmark-text", "text-muted"))
    case "tmp" => Some(Icon("bi-file-earmark", "text-muted"))
    case "cache" => Some(Icon("bi-file-earmark", "text-muted"))
    case "DS_Store" => Some(Icon("bi-file-earmark", "text-muted"))
    case _ => None
  }

  /** The own keys of `specialFiles`, looked up by the whole file name first. */
  function SpecialFileIcon(fileName: string): (r: Option<Icon>)
    ensures r.Some? ==> fileName != [] && fileName !in PrototypeMembers
  {
    match fileName
    case "Dockerfile" => Some(Icon("bi-file-earmark-text", "text-primary"))
    case "docker-compose.yml" => Some(Icon("bi-file-earmark-text", "text-primary"))
    case "docker-compose.yaml" => Some(Icon("bi-file-earmark-text", "text-primary"))
    case "package.json" => Some(Icon("bi-filetype-json", "text-success"))
    case "package-lock.json" => Some(Icon("bi-lock-fill", "text-warning"))
    case "yarn.lock" => Some(Icon("bi-lock-fill", "text-info"))
    case "composer.json" => Some(Icon("bi-filetype-json", "text-warning"))
    case "composer.lock" => Some(Icon("bi-lock-fill", "text-warning"))
    case "Gemfile" => Some(Icon("bi-gem", "text-danger"))
    case "Gemfile.lock" => Some(Icon("bi-lock-fill", "text-danger"))
    case "Makefile" => Some(Icon("bi-file-earmark-text", "text-secondary"))
    case "CMakeLists.txt" => Some(Icon("bi-file-earmark-text", "text-success"))
    case "README.md" => Some(Icon("bi-book", "text-primary"))
    case "LICENSE" => Some(Icon("bi-file-earmark-text", "text-secondary"))
    case ".gitignore" => Some(Icon("bi-git", "text-danger"))
    case ".env" => Some(Icon("bi-gear-fill", "text-warning"))
    case ".htaccess" => Some(Icon("bi-shield-lock", "text-danger"))
    case "robots.txt" => Some(Icon("bi-robot", "text-secondary"))
    case "sitemap.xml" => Some(Icon("bi-diagram-3", "text-success"))
    case _ => None
  }

  /** The names every plain JavaScript object inherits from `Object.prototype`. */
  const PrototypeMembers: set<string> := {
      "constructor", "__defineGetter__", "__defineSetter__", "hasOwnProperty", "__lookupGetter__",
      "__lookupSetter__", "isPrototypeOf", "propertyIsEnumerable", "toString", "valueOf", "__proto__",
      "toLocaleString"
    }

  /** What indexing an object literal yields: a string, nothing, or an inherited built-in. */
  datatype JsValue = Undefined | Str(s: string) | Native(name: string)
  {
    predicate Truthy()
    {
      match this
      case Undefined => false
      case Str(s) => s != ""
      case Native(_) => true
    }
  }

  /** `table[key]` on an object literal whose own entry for `key` is `own`: inherited members answer too. */
  function ObjectLookup(own: Option<Icon>, key: string): (r: JsValue)
    ensures own.Some? ==> r == Str(own.value.Class()) && r.Truthy()
    ensures own.None? ==> (r.Truthy() <==> key in PrototypeMembers)
    ensures r.Native? ==> own.None? && r.name == key
  {
    match own
    case Some(v) => Str(v.Class())
    case None => if key in PrototypeMembers then Native(key) else Undefined
  }

  /** `fileName.split('.').pop().toLowerCase()`. */
  function FileExt(fileName: string): (e: string)
    ensures NoUpper(e) && '.' !in e
  {
    var parts := Split(fileName, '.');
    Lower(parts[|parts| - 1])
  }

  /** A name without a dot is its own extension, lower-cased. */
  lemma FileExtOfDotless(fileName: string)
    requires '.' !in fileName
    ensures FileExt(fileName) == Lower(fileName)
  {
    SplitFree(fileName, '.');
  }

  /** `getFileIcon(fileName, isDir)` as written: the result may be a built-in rather than a class list. */
  function FileIconAsWritten(fileName: string, isDir: bool): (r: JsValue)
    ensures isDir ==> r == Str(FolderIcon.Class())
    ensures r.Truthy()
  {
    if isDir then Str(FolderIcon.Class())
    else
      var special := ObjectLookup(SpecialFileIcon(fileName), fileName);
      if special.Truthy() then special
      else
        var ext := FileExt(fileName);
        var byExt := ObjectLookup(ExtensionIcon(ext), ext);
        if byExt.Truthy() then byExt else Str(DefaultIcon.Class())
  }

  /** The extension table with the `.DS_Store` entry under the key the lower-cased lookup uses. */
  function CorrectedExtensionIcon(ext: string): (r: Option<Icon>)
    ensures ext != "DS_Store" && ext != "ds_store" ==> r == ExtensionIcon(ext)
    ensures ext == "DS_Store" ==> r.None?
    ensures ext == "ds_store" ==> r == Some(Icon("bi-file-earmark", "text-muted"))
  {
    if ext == "DS_Store" then None
    else if ext == "ds_store" then Some(Icon("bi-file-earmark", "text-muted"))
    else ExtensionIcon(ext)
  }

  /** `getFileIcon` looking only at the tables' own keys, with the corrected extension table. */
  function FileIcon(fileName: string, isDir: bool): (r: Icon)
    ensures isDir ==> r == FolderIcon
    ensures !isDir && SpecialFileIcon(fileName).Some? ==> r == SpecialFileIcon(fileName).value
    ensures !isDir && SpecialFileIcon(fileName).None? && CorrectedExtensionIcon(FileExt(fileName)).None? ==>
              r == DefaultIcon
  {
    if isDir then FolderIcon
    else match SpecialFileIcon(fileName)
      case Some(icon) => icon
      case None =>
        match CorrectedExtensionIcon(FileExt(fileName))
        case Some(icon) => icon
        case None => DefaultIcon
  }

  /** The lower-cased extension is never the key "DS_Store", so that entry is never used. */
  lemma DsStoreKeyUnreachable(fileName: string)
    ensures FileExt(fileName) != "DS_Store"
  {
    var e := FileExt(fileName);
    if |e| > 0 {
      assert !IsUpper(e[0]);
    }
  }

  /** The last piece of `a.e` split at dots is `e`. */
  lemma {:induction false} SplitLast(a: string, e: string, c: char)
    requires c !in e
    ensures var parts := Split(a + [c] + e, c); |parts| >= 2 && parts[|parts| - 1] == e
    decreases |a|
  {
    var s := a + [c] + e;
    if a == [] {
      assert s[0] == c && s[1..] == e;
      SplitFree(e, c);
    } else {
      assert s[0] == a[0] && s[1..] == a[1..] + [c] + e;
      SplitLast(a[1..], e, c);
    }
  }

  /** A file named `stem.ext` gets the corrected table's entry for `ext`, for any lower-case, dot-free key. */
  lemma ExtensionIconReachable(stem: string, ext: string)
    requires NoUpper(ext) && '.' !in ext
    requires CorrectedExtensionIcon(ext).Some? && SpecialFileIcon(stem + "." + ext).None?
    ensures FileIcon(stem + "." + ext, false) == CorrectedExtensionIcon(ext).value
  {
    SplitLast(stem, ext, '.');
    LowerNoUpper(ext);
    assert FileExt(stem + "." + ext) == ext;
  }

  /** The extension of `stem.ext` is `ext`, lower-cased. */
  lemma ExtensionOfDotted(stem: string, ext: string)
    requires '.' !in ext
    ensures FileExt(stem + "." + ext) == Lower(ext)
  {
    SplitLast(stem, ext, '.');
  }

  lemma DsStoreKeyMissing()
    ensures ExtensionIcon("ds_store").None?
  {
  }

  lemma DsStoreNotPrototype()
    ensures "ds_store" !in PrototypeMembers
  {
  }

  /** No `Object.prototype` member has a dot in its name. */
  lemma DottedNotPrototype(f: string)
    requires '.' in f
    ensures f !in PrototypeMembers
  {
  }

  /** As written, a `.DS_Store` file (in any spelling of its extension) gets the default icon. */
  lemma DsStoreAsWritten(stem: string, ext: string)
    requires '.' !in ext && Lower(ext) == "ds_store"
    requires SpecialFileIcon(stem + "." + ext).None?
    ensures FileIconAsWritten(stem + "." + ext, false) == Str(DefaultIcon.Class())
  {
    var f := stem + "." + ext;
    assert f[|stem|] == '.';
    DottedNotPrototype(f);
    ExtensionOfDotted(stem, ext);
    DsStoreKeyMissing();
    DsStoreNotPrototype();
  }

  /** Corrected, a `.DS_Store` file gets the icon the table's `DS_Store` entry names. */
  lemma DsStoreCorrected(stem: string, ext: string)
    requires '.' !in ext && Lower(ext) == "ds_store"
    requires SpecialFileIcon(stem + "." + ext).None?
    ensures FileIcon(stem + "." + ext, false) == Icon("bi-file-earmark", "text-muted")
  {
    ExtensionOfDotted(stem, ext);
  }

  /** As written, a file named after an `Object.prototype` member gets that built-in as its "icon". */
  lemma PrototypeNameAsWritten(fileName: string)
    requires fileName in PrototypeMembers
    ensures FileIconAsWritten(fileName, false) == Native(fileName)
  {
  }

  /** Away from those two cases, the code as written and the corrected lookup give the same class list. */
  lemma AsWrittenAgrees(fileName: string, isDir: bool)
    requires fileName !in PrototypeMembers && FileExt(fileName) !in PrototypeMembers
    requires FileExt(fileName) != "ds_store"
    ensures FileIconAsWritten(fileName, isDir) == Str(FileIcon(fileName, isDir).Class())
  {
    DsStoreKeyUnreachable(fileName);
  }
}
