/** The URL list of the command-line entry point: the `--url` argument and
    the lines of the `--url-file`. */
module UrlList {
  import opened Wrappers
  import opened Text

  /** The URL from `--url`: stripped, kept when the argument is a non-empty string. */
  function UrlArgPart(url: Option<string>): (r: seq<string>)
    ensures |r| <= 1
    ensures |r| == 1 <==> url.Some? && url.value != ""
    ensures |r| == 1 ==> r[0] == Strip(url.value, Whitespace)
  {
    if url.Some? && url.value != "" then [Strip(url.value, Whitespace)] else []
  }

  /** The comprehension over the URL file: its stripped non-blank lines, in
      file order. */
  function FileUrls(lines: seq<string>): (r: seq<string>)
    ensures |r| <= |lines|
    ensures forall j :: 0 <= j < |r| ==> r[j] != ""
  {
    NonBlank(StripAll(lines))
  }

  /** Every line stripped. */
  function StripAll(lines: seq<string>): (r: seq<string>)
    ensures |r| == |lines|
    ensures forall i :: 0 <= i < |lines| ==> r[i] == Strip(lines[i], Whitespace)
  {
    MapSeq((line: string) => Strip(line, Whitespace), lines)
  }

  /** `f` applied to every element, in order. */
  function MapSeq<X, Y>(f: X -> Y, xs: seq<X>): (r: seq<Y>)
    ensures |r| == |xs|
    ensures forall i :: 0 <= i < |xs| ==> r[i] == f(xs[i])
  {
    seq(|xs|, i requires 0 <= i < |xs| => f(xs[i]))
  }

  lemma MapSeqAppend<X, Y>(f: X -> Y, a: seq<X>, b: seq<X>)
    ensures MapSeq(f, a + b) == MapSeq(f, a) + MapSeq(f, b)
  {
    assert forall i :: 0 <= i < |a + b| ==> MapSeq(f, a + b)[i] == (MapSeq(f, a) + MapSeq(f, b))[i];
  }

  /** The non-empty strings, in order. */
  function NonBlank(xs: seq<string>): (r: seq<string>)
    ensures |r| <= |xs|
    ensures forall j :: 0 <= j < |r| ==> r[j] != ""
  {
    if |xs| == 0 then [] else (if xs[0] != "" then [xs[0]] else []) + NonBlank(xs[1..])
  }

  lemma {:induction false} NonBlankMembers(xs: seq<string>)
    ensures forall u :: u in NonBlank(xs) <==> u != "" && u in xs
  {
    if |xs| > 0 {
      NonBlankMembers(xs[1..]);
      assert xs == [xs[0]] + xs[1..];
    }
  }

  lemma {:induction false} NonBlankAppend(a: seq<string>, b: seq<string>)
    ensures NonBlank(a + b) == NonBlank(a) + NonBlank(b)
  {
    if |a| == 0 {
      assert a + b == b;
    } else {
      assert (a + b)[0] == a[0];
      assert (a + b)[1..] == a[1..] + b;
      NonBlankAppend(a[1..], b);
    }
  }

  /** Membership in both directions: a URL is listed exactly when it is the
      stripped form of some non-blank line. */
  lemma FileUrlsMembers(lines: seq<string>)
    ensures forall u :: u in FileUrls(lines) <==>
      (u != "" && exists i :: 0 <= i < |lines| && Strip(lines[i], Whitespace) == u)
  {
    var stripped := StripAll(lines);
    NonBlankMembers(stripped);
    forall u ensures u in stripped <==> exists i :: 0 <= i < |lines| && Strip(lines[i], Whitespace) == u {
      if u in stripped {
        var i :| 0 <= i < |stripped| && stripped[i] == u;
      }
    }
  }

  /** Every listed URL is non-empty and already stripped. */
  lemma FileUrlsClean(lines: seq<string>)
    ensures forall u :: u in FileUrls(lines) ==> u != "" && Strip(u, Whitespace) == u
  {
    FileUrlsMembers(lines);
    forall u | u in FileUrls(lines) ensures u != "" && Strip(u, Whitespace) == u {
      var i :| 0 <= i < |lines| && Strip(lines[i], Whitespace) == u;
      StripIdempotent(lines[i], Whitespace);
    }
  }

  /** File order is kept: the URLs of two consecutive chunks of lines are the
      URLs of the first followed by those of the second. */
  lemma FileUrlsAppend(a: seq<string>, b: seq<string>)
    ensures FileUrls(a + b) == FileUrls(a) + FileUrls(b)
  {
    MapSeqAppend((line: string) => Strip(line, Whitespace), a, b);
    NonBlankAppend(StripAll(a), StripAll(b));
  }

  /** The file contributes nothing exactly when every line is blank. */
  lemma FileUrlsEmptyIff(lines: seq<string>)
    ensures |FileUrls(lines)| == 0 <==> forall i :: 0 <= i < |lines| ==> Strip(lines[i], Whitespace) == ""
  {
    FileUrlsMembers(lines);
    if |FileUrls(lines)| > 0 {
      assert FileUrls(lines)[0] in FileUrls(lines);
    }
    if i :| 0 <= i < |lines| && Strip(lines[i], Whitespace) != "" {
      assert Strip(lines[i], Whitespace) in FileUrls(lines);
    }
  }

  /** The URL list of `main`: the stripped `--url` when it is a non-empty
      string, then the URLs of the `--url-file`. `urlFile` holds the file's
      lines, or None when the option is absent or names no existing file. */
  method BuildUrlList(urlArg: Option<string>, urlFile: Option<seq<string>>) returns (urls: seq<string>)
    ensures urls == UrlArgPart(urlArg) + (if urlFile.Some? then FileUrls(urlFile.value) else [])
    ensures |urls| == 0 <==> (urlArg.None? || urlArg.value == "") && (urlFile.None? || forall i :: 0 <= i < |urlFile.value| ==> Strip(urlFile.value[i], Whitespace) == "")
  {
    urls := [];
    if urlArg.Some? && urlArg.value != "" {
      urls := urls + [Strip(urlArg.value, Whitespace)];
    }
    if urlFile.Some? {
      FileUrlsEmptyIff(urlFile.value);
      urls := urls + FileUrls(urlFile.value);
    }
  }
}
