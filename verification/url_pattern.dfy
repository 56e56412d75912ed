/**
 * The review-URL classifier: the constructor's regular expression
 *   https?:\/\/((api(.dev)?(.stg)?.ntmg.com)|(localhost:3007))\/v1\/reviews\/([^/?&"]+)
 * written as data, its meaning as a set of matched words, and `test` as a
 * search for a start position from which the pattern can reach some end.
 * The pattern has no `g` flag, so `test` keeps no `lastIndex` between calls:
 * it is a function of its argument.
 */
module UrlPattern {
  import opened JsValues

  /** The regular-expression constructs the pattern uses. */
  datatype Re =
    | Lit(text: string)            // a run of literal characters
    | AnyChar                      // `.`: one character that is not a line terminator
    | RunNotIn(excluded: set<char>) // `[^...]+`: one or more characters outside the class
    | Cat(first: Re, second: Re)
    | Alt(left: Re, right: Re)     // `a|b`
    | Opt(inner: Re)               // `(a)?`

  /** The characters that `.` does not match without the `s` flag. */
  predicate IsLineTerminator(c: char) {
    c == '\n' || c == '\r' || c == '\U{2028}' || c == '\U{2029}'
  }

  /** The words the expression describes. */
  ghost predicate Matches(r: Re, w: string)
    decreases r
  {
    match r
    case Lit(t) => w == t
    case AnyChar => |w| == 1 && !IsLineTerminator(w[0])
    case RunNotIn(ex) => |w| >= 1 && forall k :: 0 <= k < |w| ==> w[k] !in ex
    case Cat(a, b) => exists k :: 0 <= k <= |w| && Matches(a, w[..k]) && Matches(b, w[k..])
    case Alt(a, b) => Matches(a, w) || Matches(b, w)
    case Opt(a) => w == [] || Matches(a, w)
  }

  /** No character of `s[i..j]` is in `ex`. */
  predicate NoneIn(s: string, i: nat, j: nat, ex: set<char>)
    requires i <= j <= |s|
  {
    forall k :: i <= k < j ==> s[k] !in ex
  }

  /**
   * The positions at which a match of `r` begun at `i` in `s` can end: the
   * set a backtracking matcher explores from start position `i`.
   */
  function Ends(r: Re, s: string, i: nat): (ends: set<nat>)
    requires i <= |s|
    ensures forall j :: j in ends ==> i <= j <= |s|
    decreases r
  {
    match r
    case Lit(t) => if i + |t| <= |s| && s[i..i + |t|] == t then {i + |t|} else {}
    case AnyChar => if i < |s| && !IsLineTerminator(s[i]) then {i + 1} else {}
    case RunNotIn(ex) => set j: nat | i < j <= |s| && NoneIn(s, i, j, ex)
    case Cat(a, b) => set k, j | k in Ends(a, s, i) && j in Ends(b, s, k) :: j
    case Alt(a, b) => Ends(a, s, i) + Ends(b, s, i)
    case Opt(a) => {i} + Ends(a, s, i)
  }

  /** `RegExp.prototype.test` on a pattern without the `g` or `y` flag. */
  predicate Test(r: Re, s: string) {
    exists i :: 0 <= i <= |s| && Ends(r, s, i) != {}
  }

  /** The matcher finds exactly the matches the semantics describes. */
  lemma {:induction false} EndsCorrect(r: Re, s: string, i: nat, j: nat)
    requires i <= j <= |s|
    ensures j in Ends(r, s, i) <==> Matches(r, s[i..j])
    decreases r, 2
  {
    match r
    case Lit(t) =>
    case AnyChar =>
    case RunNotIn(ex) => RunEndsCorrect(ex, s, i, j);
    case Cat(a, b) => CatEndsCorrect(a, b, s, i, j);
    case Alt(a, b) =>
      EndsCorrect(a, s, i, j);
      EndsCorrect(b, s, i, j);
    case Opt(a) =>
      EndsCorrect(a, s, i, j);
  }

  lemma {:induction false} CatEndsCorrect(a: Re, b: Re, s: string, i: nat, j: nat)
    requires i <= j <= |s|
    ensures j in Ends(Cat(a, b), s, i) <==> Matches(Cat(a, b), s[i..j])
    decreases Cat(a, b), 1
  {
    if j in Ends(Cat(a, b), s, i) {
      CatEndsSound(a, b, s, i, j);
    }
    if Matches(Cat(a, b), s[i..j]) {
      CatEndsComplete(a, b, s, i, j);
    }
  }

  lemma {:induction false} CatEndsSound(a: Re, b: Re, s: string, i: nat, j: nat)
    requires i <= j <= |s| && j in Ends(Cat(a, b), s, i)
    ensures Matches(Cat(a, b), s[i..j])
    decreases Cat(a, b), 0
  {
    var k :| k in Ends(a, s, i) && j in Ends(b, s, k);
    EndsCorrect(a, s, i, k);
    EndsCorrect(b, s, k, j);
    CatJoinAt(a, b, s, i, k, j);
  }

  lemma {:induction false} CatEndsComplete(a: Re, b: Re, s: string, i: nat, j: nat)
    requires i <= j <= |s| && Matches(Cat(a, b), s[i..j])
    ensures j in Ends(Cat(a, b), s, i)
    decreases Cat(a, b), 0
  {
    var m := CatWitness(a, b, s[i..j]);
    SplitSlice(s, i, j, m);
    EndsCorrect(a, s, i, i + m);
    EndsCorrect(b, s, i + m, j);
  }

  lemma SplitSlice<T>(s: seq<T>, i: nat, j: nat, m: nat)
    requires i <= j <= |s| && m <= j - i
    ensures s[i..j][..m] == s[i..i + m] && s[i..j][m..] == s[i + m..j]
  {
  }

  lemma RunEndsCorrect(ex: set<char>, s: string, i: nat, j: nat)
    requires i <= j <= |s|
    ensures j in Ends(RunNotIn(ex), s, i) <==> Matches(RunNotIn(ex), s[i..j])
  {
    var w := s[i..j];
    assert (forall k :: 0 <= k < |w| ==> w[k] !in ex) <==> NoneIn(s, i, j, ex) by {
      forall k | i <= k < j ensures w[k - i] == s[k] { }
    }
  }

  /** Two adjacent matches make a match of the concatenation. */
  lemma CatJoinAt(a: Re, b: Re, s: string, i: nat, k: nat, j: nat)
    requires i <= k <= j <= |s|
    requires Matches(a, s[i..k]) && Matches(b, s[k..j])
    ensures Matches(Cat(a, b), s[i..j])
  {
    var w := s[i..j];
    assert w[..k - i] == s[i..k] && w[k - i..] == s[k..j];
  }

  /** Where a match of a concatenation splits. */
  lemma CatWitness(a: Re, b: Re, w: string) returns (m: nat)
    requires Matches(Cat(a, b), w)
    ensures m <= |w| && Matches(a, w[..m]) && Matches(b, w[m..])
  {
    m :| 0 <= m <= |w| && Matches(a, w[..m]) && Matches(b, w[m..]);
  }

  /** `test` succeeds exactly when some substring of its argument is a word of the pattern. */
  lemma TestIffSomeSubstringMatches(r: Re, s: string)
    ensures Test(r, s) <==> exists i, j :: 0 <= i <= j <= |s| && Matches(r, s[i..j])
  {
    if Test(r, s) {
      var i :| 0 <= i <= |s| && Ends(r, s, i) != {};
      var j :| j in Ends(r, s, i);
      EndsCorrect(r, s, i, j);
    }
    if exists i, j :: 0 <= i <= j <= |s| && Matches(r, s[i..j]) {
      var i, j :| 0 <= i <= j <= |s| && Matches(r, s[i..j]);
      EndsCorrect(r, s, i, j);
      assert Ends(r, s, i) != {};
    }
  }

  /** The search is unanchored: text before or after a match does not hide it. */
  lemma TestIgnoresSurroundings(r: Re, before: string, s: string, after: string)
    requires Test(r, s)
    ensures Test(r, before + s + after)
  {
    var t := before + s + after;
    TestIffSomeSubstringMatches(r, s);
    var i, j :| 0 <= i <= j <= |s| && Matches(r, s[i..j]);
    assert t[|before| + i..|before| + j] == s[i..j];
    TestIffSomeSubstringMatches(r, t);
  }

  // ---------------------------------------------------------------------
  // The review pattern

  /** The characters `[^/?&"]` leaves out of a review id. */
  const IdExcluded: set<char> := {'/', '?', '&', '"'}

  /** `api(.dev)?(.stg)?.ntmg.com`, every `.` unescaped. */
  const ApiHost: Re :=
    Cat(Lit("api"),
    Cat(Opt(Cat(AnyChar, Lit("dev"))),
    Cat(Opt(Cat(AnyChar, Lit("stg"))),
    Cat(AnyChar, Cat(Lit("ntmg"), Cat(AnyChar, Lit("com")))))))

  const ReviewPattern: Re :=
    Cat(Lit("http"), Cat(Opt(Lit("s")), Cat(Lit("://"),
    Cat(Alt(ApiHost, Lit("localhost:3007")),
    Cat(Lit("/v1/reviews/"), RunNotIn(IdExcluded))))))

  /** `this.regex.test(url)` */
  predicate IsReviewUrl(url: string) {
    Test(ReviewPattern, url)
  }

  // ---------------------------------------------------------------------
  // The same language, written out by hand

  /** One character that an unescaped `.` accepts, followed by `word`. */
  ghost predicate DotThen(x: string, word: string) {
    |x| == |word| + 1 && !IsLineTerminator(x[0]) && x[1..] == word
  }

  ghost predicate OptionalDotThen(x: string, word: string) {
    x == [] || DotThen(x, word)
  }

  /** `?ntmg?com`, each `?` any character but a line terminator. */
  ghost predicate NtmgComTail(t: string) {
    |t| == 9 && !IsLineTerminator(t[0]) && t[1..5] == "ntmg"
    && !IsLineTerminator(t[5]) && t[6..] == "com"
  }

  /** Hosts the pattern accepts: `api`, optional `?dev`, optional `?stg`, `?ntmg?com`; or `localhost:3007`. */
  ghost predicate ReviewHost(h: string) {
    h == "localhost:3007" || ApiHostName(h)
  }

  /** A review id: at least one character, none of them `/`, `?`, `&` or `"`. */
  ghost predicate ReviewId(id: string) {
    |id| >= 1 && forall k :: 0 <= k < |id| ==> id[k] !in IdExcluded
  }

  /** What follows the scheme: a host, the fixed path and an id. */
  ghost predicate HostPathId(rest: string) {
    exists host, id :: rest == host + "/v1/reviews/" + id && ReviewHost(host) && ReviewId(id)
  }

  /** A whole review URL as the pattern describes it. */
  ghost predicate ReviewWord(w: string) {
    exists scheme, rest :: w == scheme + rest && (scheme == "http://" || scheme == "https://") && HostPathId(rest)
  }

  // Rules for the constructs the pattern combines

  /** Two adjacent words of `a` and `b` make a word of their concatenation. */
  lemma CatIntro(a: Re, b: Re, x: string, y: string)
    requires Matches(a, x) && Matches(b, y)
    ensures Matches(Cat(a, b), x + y)
  {
    var w := x + y;
    assert w[..|x|] == x && w[|x|..] == y;
  }

  lemma LitThen(t: string, b: Re, w: string)
    ensures Matches(Cat(Lit(t), b), w) <==> |t| <= |w| && w[..|t|] == t && Matches(b, w[|t|..])
  {
    if Matches(Cat(Lit(t), b), w) {
      var m := CatWitness(Lit(t), b, w);
    }
    if |t| <= |w| && w[..|t|] == t && Matches(b, w[|t|..]) {
      assert Matches(Lit(t), w[..|t|]);
    }
  }

  lemma AnyThen(b: Re, w: string)
    ensures Matches(Cat(AnyChar, b), w) <==> |w| >= 1 && !IsLineTerminator(w[0]) && Matches(b, w[1..])
  {
    if Matches(Cat(AnyChar, b), w) {
      var m := CatWitness(AnyChar, b, w);
    }
    if |w| >= 1 && !IsLineTerminator(w[0]) && Matches(b, w[1..]) {
      assert Matches(AnyChar, w[..1]);
    }
  }

  /** Where a match of a concatenation splits, as two words. */
  lemma CatSplit(a: Re, b: Re, w: string) returns (x: string, y: string)
    requires Matches(Cat(a, b), w)
    ensures w == x + y && Matches(a, x) && Matches(b, y)
  {
    var m := CatWitness(a, b, w);
    x, y := w[..m], w[m..];
  }

  lemma LitSplit(t: string, b: Re, w: string) returns (post: string)
    requires Matches(Cat(Lit(t), b), w)
    ensures w == t + post && Matches(b, post)
  {
    var x, y := CatSplit(Lit(t), b, w);
    post := y;
  }

  lemma LitJoin(t: string, b: Re, post: string)
    requires Matches(b, post)
    ensures Matches(Cat(Lit(t), b), t + post)
  {
    CatIntro(Lit(t), b, t, post);
  }

  lemma OptionalDotJoin(word: string, b: Re, pre: string, post: string)
    requires OptionalDotThen(pre, word) && Matches(b, post)
    ensures Matches(Cat(Opt(Cat(AnyChar, Lit(word))), b), pre + post)
  {
    OptionalDotWord(word, pre);
    CatIntro(Opt(Cat(AnyChar, Lit(word))), b, pre, post);
  }

  lemma OptionalDotSplit(word: string, b: Re, x: string) returns (pre: string, post: string)
    requires Matches(Cat(Opt(Cat(AnyChar, Lit(word))), b), x)
    ensures x == pre + post && OptionalDotThen(pre, word) && Matches(b, post)
  {
    var m := CatWitness(Opt(Cat(AnyChar, Lit(word))), b, x);
    pre, post := x[..m], x[m..];
    OptionalDotWord(word, pre);
  }

  lemma OptionalDotWord(word: string, x: string)
    ensures Matches(Opt(Cat(AnyChar, Lit(word))), x) <==> OptionalDotThen(x, word)
  {
    AnyThen(Lit(word), x);
  }

  // The pattern, piece by piece

  const NtmgCom: Re := Cat(AnyChar, Cat(Lit("ntmg"), Cat(AnyChar, Lit("com"))))
  const StgThenTail: Re := Cat(Opt(Cat(AnyChar, Lit("stg"))), NtmgCom)
  const DevThenRest: Re := Cat(Opt(Cat(AnyChar, Lit("dev"))), StgThenTail)
  const ReviewPath: Re := Cat(Lit("/v1/reviews/"), RunNotIn(IdExcluded))
  const HostThenPath: Re := Cat(Alt(ApiHost, Lit("localhost:3007")), ReviewPath)

  ghost predicate StgTail(x: string) {
    exists stg, tail :: x == stg + tail && OptionalDotThen(stg, "stg") && NtmgComTail(tail)
  }

  ghost predicate DevStgTail(x: string) {
    exists dev, rest :: x == dev + rest && OptionalDotThen(dev, "dev") && StgTail(rest)
  }

  ghost predicate ApiHostName(h: string) {
    exists dev, stg, tail ::
      h == "api" + dev + stg + tail
      && OptionalDotThen(dev, "dev") && OptionalDotThen(stg, "stg") && NtmgComTail(tail)
  }

  lemma NtmgComIff(t: string)
    ensures Matches(NtmgCom, t) <==> NtmgComTail(t)
  {
    AnyThen(Cat(Lit("ntmg"), Cat(AnyChar, Lit("com"))), t);
    if |t| >= 1 {
      var t1 := t[1..];
      LitThen("ntmg", Cat(AnyChar, Lit("com")), t1);
      if |t1| >= 4 {
        AnyThen(Lit("com"), t1[4..]);
        if |t| >= 6 {
          assert t1[..4] == t[1..5] && t1[4..][1..] == t[6..] && t1[4..][0] == t[5];
        }
      }
    }
  }

  lemma StgThenTailIff(x: string)
    ensures Matches(StgThenTail, x) <==> StgTail(x)
  {
    if Matches(StgThenTail, x) { StgThenTailSound(x); }
    if StgTail(x) { StgThenTailComplete(x); }
  }

  lemma StgThenTailSound(x: string)
    requires Matches(StgThenTail, x)
    ensures StgTail(x)
  {
    var stg, tail := OptionalDotSplit("stg", NtmgCom, x);
    NtmgComIff(tail);
  }

  lemma StgThenTailComplete(x: string)
    requires StgTail(x)
    ensures Matches(StgThenTail, x)
  {
    var stg, tail :| x == stg + tail && OptionalDotThen(stg, "stg") && NtmgComTail(tail);
    NtmgComIff(tail);
    OptionalDotJoin("stg", NtmgCom, stg, tail);
  }

  lemma DevThenRestIff(x: string)
    ensures Matches(DevThenRest, x) <==> DevStgTail(x)
  {
    if Matches(DevThenRest, x) { DevThenRestSound(x); }
    if DevStgTail(x) { DevThenRestComplete(x); }
  }

  lemma DevThenRestSound(x: string)
    requires Matches(DevThenRest, x)
    ensures DevStgTail(x)
  {
    var dev, rest := OptionalDotSplit("dev", StgThenTail, x);
    StgThenTailIff(rest);
  }

  lemma DevThenRestComplete(x: string)
    requires DevStgTail(x)
    ensures Matches(DevThenRest, x)
  {
    var dev, rest :| x == dev + rest && OptionalDotThen(dev, "dev") && StgTail(rest);
    StgThenTailIff(rest);
    OptionalDotJoin("dev", StgThenTail, dev, rest);
  }

  lemma ApiHostNameIff(h: string)
    ensures ApiHostName(h) <==> |h| >= 3 && h[..3] == "api" && DevStgTail(h[3..])
  {
    if ApiHostName(h) { ApiHostNameSplit(h); }
    if |h| >= 3 && h[..3] == "api" && DevStgTail(h[3..]) { ApiHostNameJoin(h); }
  }

  lemma ApiHostNameSplit(h: string)
    requires ApiHostName(h)
    ensures |h| >= 3 && h[..3] == "api" && DevStgTail(h[3..])
  {
    var dev, stg, tail :| h == "api" + dev + stg + tail
      && OptionalDotThen(dev, "dev") && OptionalDotThen(stg, "stg") && NtmgComTail(tail);
    Regroup("api", dev, stg, tail);
    PrefixSplit("api", dev + (stg + tail));
    assert StgTail(stg + tail);
  }

  lemma ApiHostNameJoin(h: string)
    requires |h| >= 3 && h[..3] == "api" && DevStgTail(h[3..])
    ensures ApiHostName(h)
  {
    var dev, rest :| h[3..] == dev + rest && OptionalDotThen(dev, "dev") && StgTail(rest);
    var stg, tail :| rest == stg + tail && OptionalDotThen(stg, "stg") && NtmgComTail(tail);
    assert h == "api" + dev + stg + tail;
  }

  /** The host alternation accepts exactly the hosts written out in ReviewHost. */
  lemma HostIff(h: string)
    ensures Matches(Alt(ApiHost, Lit("localhost:3007")), h) <==> ReviewHost(h)
  {
    LitThen("api", DevThenRest, h);
    if |h| >= 3 {
      DevThenRestIff(h[3..]);
    }
    ApiHostNameIff(h);
  }

  lemma HostThenPathIff(rest: string)
    ensures Matches(HostThenPath, rest) <==> HostPathId(rest)
  {
    if Matches(HostThenPath, rest) { HostThenPathSound(rest); }
    if HostPathId(rest) { HostThenPathComplete(rest); }
  }

  lemma HostThenPathSound(rest: string)
    requires Matches(HostThenPath, rest)
    ensures HostPathId(rest)
  {
    var host, id := PathSplit(Alt(ApiHost, Lit("localhost:3007")), rest);
    HostIff(host);
  }

  lemma HostThenPathComplete(rest: string)
    requires HostPathId(rest)
    ensures Matches(HostThenPath, rest)
  {
    var host, id :| rest == host + "/v1/reviews/" + id && ReviewHost(host) && ReviewId(id);
    HostIff(host);
    PathJoin(Alt(ApiHost, Lit("localhost:3007")), host, id);
  }

  lemma PathSplit(h: Re, rest: string) returns (host: string, id: string)
    requires Matches(Cat(h, ReviewPath), rest)
    ensures rest == host + "/v1/reviews/" + id && Matches(h, host) && ReviewId(id)
  {
    var path;
    host, path := CatSplit(h, ReviewPath, rest);
    id := LitSplit("/v1/reviews/", RunNotIn(IdExcluded), path);
  }

  lemma PathJoin(h: Re, host: string, id: string)
    requires Matches(h, host) && ReviewId(id)
    ensures Matches(Cat(h, ReviewPath), host + "/v1/reviews/" + id)
  {
    LitJoin("/v1/reviews/", RunNotIn(IdExcluded), id);
    CatIntro(h, ReviewPath, host, "/v1/reviews/" + id);
    AppendAssoc(host, "/v1/reviews/", id);
  }

  /** `https?://` followed by a word of `b`. */
  ghost predicate SchemeThen(b: Re, w: string) {
    Matches(Cat(Lit("http"), Cat(Opt(Lit("s")), Cat(Lit("://"), b))), w)
  }

  lemma SchemeSplit(b: Re, w: string) returns (scheme: string, rest: string)
    requires SchemeThen(b, w)
    ensures w == scheme + rest && (scheme == "http://" || scheme == "https://") && Matches(b, rest)
  {
    var afterHttp := LitSplit("http", Cat(Opt(Lit("s")), Cat(Lit("://"), b)), w);
    var s, y := CatSplit(Opt(Lit("s")), Cat(Lit("://"), b), afterHttp);
    rest := LitSplit("://", b, y);
    assert s == [] || s == "s";
    scheme := "http" + s + "://";
    assert scheme == "http://" || scheme == "https://";
    Regroup("http", s, "://", rest);
  }

  lemma Regroup<T>(a: seq<T>, b: seq<T>, c: seq<T>, d: seq<T>)
    ensures a + (b + (c + d)) == a + b + c + d
  {
  }

  lemma SchemeJoin(b: Re, scheme: string, rest: string)
    requires (scheme == "http://" || scheme == "https://") && Matches(b, rest)
    ensures SchemeThen(b, scheme + rest)
  {
    var s := if scheme == "http://" then "" else "s";
    assert scheme == "http" + s + "://";
    LitJoin("://", b, rest);
    assert Matches(Opt(Lit("s")), s);
    CatIntro(Opt(Lit("s")), Cat(Lit("://"), b), s, "://" + rest);
    LitJoin("http", Cat(Opt(Lit("s")), Cat(Lit("://"), b)), s + ("://" + rest));
    Regroup("http", s, "://", rest);
  }

  /** The review pattern describes exactly the review URLs written out by hand. */
  lemma ReviewPatternIff(w: string)
    ensures Matches(ReviewPattern, w) <==> ReviewWord(w)
  {
    assert ReviewPattern == Cat(Lit("http"), Cat(Opt(Lit("s")), Cat(Lit("://"), HostThenPath)));
    if Matches(ReviewPattern, w) {
      var scheme, rest := SchemeSplit(HostThenPath, w);
      HostThenPathIff(rest);
    }
    if ReviewWord(w) {
      var scheme, rest :| w == scheme + rest && (scheme == "http://" || scheme == "https://") && HostPathId(rest);
      HostThenPathIff(rest);
      SchemeJoin(HostThenPath, scheme, rest);
    }
  }

  /** The classifier accepts a URL exactly when one of its substrings is a review URL. */
  lemma IsReviewUrlIff(url: string)
    ensures IsReviewUrl(url) <==> exists i, j :: 0 <= i <= j <= |url| && ReviewWord(url[i..j])
  {
    if IsReviewUrl(url) {
      var i, j := TestWitness(ReviewPattern, url);
      ReviewPatternIff(url[i..j]);
    }
    if exists i, j :: 0 <= i <= j <= |url| && ReviewWord(url[i..j]) {
      var i, j :| 0 <= i <= j <= |url| && ReviewWord(url[i..j]);
      ReviewPatternIff(url[i..j]);
      TestFromMatch(ReviewPattern, url, i, j);
    }
  }

  // ---------------------------------------------------------------------
  // Consequences

  lemma TestWitness(r: Re, s: string) returns (i: nat, j: nat)
    requires Test(r, s)
    ensures i <= j <= |s| && Matches(r, s[i..j])
  {
    TestIffSomeSubstringMatches(r, s);
    i, j :| 0 <= i <= j <= |s| && Matches(r, s[i..j]);
  }

  lemma TestFromMatch(r: Re, s: string, i: nat, j: nat)
    requires i <= j <= |s| && Matches(r, s[i..j])
    ensures Test(r, s)
  {
    TestIffSomeSubstringMatches(r, s);
  }

  /** At `k` stands the review path, followed by a character an id may hold. */
  predicate PathAndIdAt(url: string, k: nat) {
    k + 13 <= |url| && url[k..k + 12] == "/v1/reviews/" && url[k + 12] !in IdExcluded
  }

  lemma ReviewWordHasPathAndId(w: string) returns (k: nat)
    requires ReviewWord(w)
    ensures PathAndIdAt(w, k)
  {
    var scheme, rest :| w == scheme + rest && (scheme == "http://" || scheme == "https://") && HostPathId(rest);
    var host, id :| rest == host + "/v1/reviews/" + id && ReviewHost(host) && ReviewId(id);
    k := |scheme| + |host|;
    Reassociate(scheme, host, "/v1/reviews/", id);
    SliceOfConcat(scheme + host, "/v1/reviews/", id);
  }

  lemma Reassociate<T>(a: seq<T>, b: seq<T>, c: seq<T>, d: seq<T>)
    ensures a + (b + c + d) == a + b + c + d
  {
  }

  lemma SliceOfConcat<T>(a: seq<T>, p: seq<T>, b: seq<T>)
    requires |b| > 0
    ensures (a + p + b)[|a|..|a| + |p|] == p && (a + p + b)[|a| + |p|] == b[0]
  {
  }

  /** Every accepted URL contains the review path followed by at least one id character. */
  lemma ReviewUrlHasPathAndId(url: string) returns (k: nat)
    requires IsReviewUrl(url)
    ensures PathAndIdAt(url, k)
  {
    var i, j := TestWitness(ReviewPattern, url);
    ReviewPatternIff(url[i..j]);
    k := PathAndIdInSubstring(url, i, j);
  }

  lemma PathAndIdInSubstring(url: string, i: nat, j: nat) returns (k: nat)
    requires i <= j <= |url| && ReviewWord(url[i..j])
    ensures PathAndIdAt(url, k)
  {
    var k0 := ReviewWordHasPathAndId(url[i..j]);
    k := i + k0;
    SliceOfSlice(url, i, j, k0, k0 + 12);
    SliceIndex(url, i, j, k0 + 12);
  }

  lemma SliceIndex<T>(s: seq<T>, i: nat, j: nat, a: nat)
    requires i <= j <= |s| && a < j - i
    ensures s[i..j][a] == s[i + a]
  {
  }

  lemma PrefixSplit<T>(p: seq<T>, q: seq<T>)
    ensures (p + q)[..|p|] == p && (p + q)[|p|..] == q
  {
  }

  lemma WholeSlice<T>(s: seq<T>)
    ensures s[0..|s|] == s
  {
  }

  lemma SliceOfSlice<T>(s: seq<T>, i: nat, j: nat, a: nat, b: nat)
    requires i <= j <= |s| && a <= b <= j - i
    ensures s[i..j][a..b] == s[i + a..i + b]
  {
    forall k | 0 <= k < b - a
      ensures s[i..j][a..b][k] == s[i + a..i + b][k]
    {
    }
  }

  /** Every URL of the hand-written shape is accepted. */
  lemma WholeUrlAccepted(scheme: string, host: string, id: string)
    requires scheme == "http://" || scheme == "https://"
    requires ReviewHost(host) && ReviewId(id)
    ensures IsReviewUrl(scheme + host + "/v1/reviews/" + id)
  {
    var url := scheme + host + "/v1/reviews/" + id;
    var rest := host + "/v1/reviews/" + id;
    assert HostPathId(rest);
    Reassociate(scheme, host, "/v1/reviews/", id);
    WholeSlice(url);
    ReviewPatternIff(url);
    TestFromMatch(ReviewPattern, url, 0, |url|);
  }

  function DotWord(word: string): string {
    if word == [] then [] else "." + word
  }

  /** The production, development and staging API hosts (`api`, then `.dev` and `.stg` where present, then `.ntmg.com`) are review hosts. */
  lemma DottedHostAccepted(dev: string, stg: string)
    requires dev == [] || dev == "dev"
    requires stg == [] || stg == "stg"
    ensures ReviewHost("api" + DotWord(dev) + DotWord(stg) + ".ntmg.com")
  {
    var tail := ".ntmg.com";
    assert NtmgComTail(tail) by {
      assert tail[1..5] == "ntmg" && tail[6..] == "com";
    }
    assert OptionalDotThen(DotWord(dev), "dev") by {
      if dev != [] { assert DotWord(dev)[1..] == "dev"; }
    }
    assert OptionalDotThen(DotWord(stg), "stg") by {
      if stg != [] { assert DotWord(stg)[1..] == "stg"; }
    }
    ApiHostAccepted(DotWord(dev), DotWord(stg), tail);
  }

  /** The dots are not escaped: any character but a line terminator stands in for them. */
  lemma UnescapedDotsAccepted(x: char, y: char)
    requires !IsLineTerminator(x) && !IsLineTerminator(y)
    ensures ReviewHost("api" + [x] + "ntmg" + [y] + "com")
  {
    var tail := [x] + "ntmg" + [y] + "com";
    assert tail[1..5] == "ntmg" && tail[6..] == "com";
    ApiHostAccepted("", "", tail);
    assert "api" + "" + "" + tail == "api" + [x] + "ntmg" + [y] + "com";
  }

  /** A host built from the three pieces `ReviewHost` names, in order, is a review host. */
  lemma ApiHostAccepted(dev: string, stg: string, tail: string)
    requires OptionalDotThen(dev, "dev") && OptionalDotThen(stg, "stg") && NtmgComTail(tail)
    ensures ReviewHost("api" + dev + stg + tail)
  {
  }

  /** The review path contains a `v`. */
  lemma PathHasV(url: string, k: nat)
    requires PathAndIdAt(url, k)
    ensures 'v' in url
  {
    assert url[k + 1] == url[k..k + 12][1];
  }

  /** Without a `v` anywhere there is no review path, so the URL is a plain link. */
  lemma RejectedWithoutV(url: string)
    requires 'v' !in url
    ensures !IsReviewUrl(url)
  {
    if IsReviewUrl(url) {
      var k := ReviewUrlHasPathAndId(url);
      PathHasV(url, k);
    }
  }

  lemma PlainPageRejected()
    ensures !IsReviewUrl("https://example.com/page")
  {
    RejectedWithoutV("https://example.com/page");
  }

  lemma NoIdAfterBarePath(prefix: string, k: nat)
    requires 'v' !in prefix
    ensures !PathAndIdAt(prefix + "/v1/reviews/", k)
  {
    var url := prefix + "/v1/reviews/";
    if k + 13 <= |url| {
      if k + 1 < |prefix| {
        assert url[k + 1] == prefix[k + 1];
      } else {
        assert url[k + 1] == '/';
      }
      assert url[k..k + 12][1] != 'v';
    }
  }

  /** The id needs at least one character: a URL that ends with the review path is a plain link. */
  lemma BarePathRejected(prefix: string)
    requires 'v' !in prefix
    ensures !IsReviewUrl(prefix + "/v1/reviews/")
  {
    if IsReviewUrl(prefix + "/v1/reviews/") {
      var k := ReviewUrlHasPathAndId(prefix + "/v1/reviews/");
      NoIdAfterBarePath(prefix, k);
    }
  }
}
