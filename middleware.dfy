/** The request middleware of `src/middleware.ts`: outside development it attaches a
    Content-Security-Policy header to the forwarded request and to the response, and a nonce
    to the request. The policy text is squeezed by collapsing whitespace runs and trimming.
    The nonce (a base64-encoded random UUID) is a parameter. */
module Middleware {

  import opened Text

  // ---------------------------------------------------------------------------
  // `.replace(/\s{2,}/g, ' ').trim()`
  // ---------------------------------------------------------------------------

  /** `s` without its leading whitespace. */
  function DropSpaces(s: string): (r: string)
    ensures |r| <= |s| && r == s[|s| - |r|..]
    ensures r != [] ==> !IsSpace(r[0])
    ensures forall k :: 0 <= k < |s| - |r| ==> IsSpace(s[k])
  {
    if s != [] && IsSpace(s[0]) then DropSpaces(s[1..]) else s
  }

  /** Every run of two or more whitespace characters becomes one space; a single whitespace
      character stays as it is. */
  function Collapse(s: string): (r: string)
    ensures |r| <= |s|
    ensures s != [] ==> r != [] && (IsSpace(r[0]) <==> IsSpace(s[0]))
    ensures s != [] && !IsSpace(s[0]) ==> r[0] == s[0]
    decreases |s|
  {
    if |s| >= 2 && IsSpace(s[0]) && IsSpace(s[1]) then [' '] + Collapse(DropSpaces(s))
    else if s == [] then []
    else [s[0]] + Collapse(s[1..])
  }

  /** No two whitespace characters in a row. */
  predicate NoDoubleSpace(s: string) {
    forall k :: 0 <= k < |s| - 1 ==> !(IsSpace(s[k]) && IsSpace(s[k + 1]))
  }

  /** After the collapse no two whitespace characters are adjacent. */
  lemma {:induction false} CollapseNoDoubleSpace(s: string)
    ensures NoDoubleSpace(Collapse(s))
    decreases |s|
  {
    var r := Collapse(s);
    if |s| >= 2 && IsSpace(s[0]) && IsSpace(s[1]) {
      var rest := DropSpaces(s);
      CollapseNoDoubleSpace(rest);
      assert r == [' '] + Collapse(rest);
    } else if s != [] {
      CollapseNoDoubleSpace(s[1..]);
      assert r == [s[0]] + Collapse(s[1..]);
    }
  }

  /** A text without double whitespace is left as it is. */
  lemma {:induction false} CollapseFixed(s: string)
    requires NoDoubleSpace(s)
    ensures Collapse(s) == s
    decreases |s|
  {
    if s != [] {
      assert NoDoubleSpace(s[1..]);
      CollapseFixed(s[1..]);
    }
  }

  /** The characters that are not whitespace, in order. */
  function Visible(s: string): string {
    if s == [] then [] else (if IsSpace(s[0]) then [] else [s[0]]) + Visible(s[1..])
  }

  lemma {:induction false} VisibleDropSpaces(s: string)
    ensures Visible(DropSpaces(s)) == Visible(s)
  {
    if s != [] && IsSpace(s[0]) {
      VisibleDropSpaces(s[1..]);
    }
  }

  /** The collapse only touches whitespace: the other characters survive, in order. */
  lemma {:induction false} CollapseKeepsVisible(s: string)
    ensures Visible(Collapse(s)) == Visible(s)
    decreases |s|
  {
    if |s| >= 2 && IsSpace(s[0]) && IsSpace(s[1]) {
      var rest := DropSpaces(s);
      CollapseKeepsVisible(rest);
      VisibleDropSpaces(s);
      assert Collapse(s) == [' '] + Collapse(rest);
      assert Visible([' '] + Collapse(rest)) == Visible(Collapse(rest)) by {
        assert ([' '] + Collapse(rest))[1..] == Collapse(rest);
      }
    } else if s != [] {
      CollapseKeepsVisible(s[1..]);
      assert ([s[0]] + Collapse(s[1..]))[1..] == Collapse(s[1..]);
    }
  }

  /** `w` is whitespace only. */
  predicate AllSpaces(w: string) {
    w == [] || (IsSpace(w[0]) && AllSpaces(w[1..]))
  }

  /** A whitespace run is dropped up to the first visible character after it. */
  lemma {:induction false} DropSpacesRun(w: string, b: string)
    requires AllSpaces(w)
    requires b == [] || !IsSpace(b[0])
    ensures DropSpaces(w + b) == b
  {
    if w == [] {
      assert w + b == b;
    } else {
      assert (w + b)[1..] == w[1..] + b;
      DropSpacesRun(w[1..], b);
    }
  }

  /** Leading whitespace is dropped from the front text alone when it holds a visible
      character. */
  lemma {:induction false} DropSpacesAppend(x: string, y: string)
    requires x != [] && !IsSpace(x[|x| - 1])
    ensures DropSpaces(x + y) == DropSpaces(x) + y
  {
    if IsSpace(x[0]) {
      assert (x + y)[1..] == x[1..] + y;
      DropSpacesAppend(x[1..], y);
    }
  }

  /** A run of two or more whitespace characters between visible characters becomes exactly
      one space, and the texts on either side collapse on their own. */
  lemma {:induction false} CollapseRun(a: string, w: string, b: string)
    requires |w| >= 2 && AllSpaces(w)
    requires a == [] || !IsSpace(a[|a| - 1])
    requires b == [] || !IsSpace(b[0])
    ensures Collapse(a + w + b) == Collapse(a) + [' '] + Collapse(b)
    decreases |a|, 1
  {
    if a == [] {
      CollapseRunAtStart(a, w, b);
    } else if |a| >= 2 && IsSpace(a[0]) && IsSpace(a[1]) {
      CollapseRunAfterSpaces(a, w, b);
    } else {
      CollapseRunAfterChar(a, w, b);
    }
  }

  /** The inductive step when the text opens with a whitespace run of its own. */
  lemma {:induction false} CollapseRunAfterSpaces(a: string, w: string, b: string)
    requires |w| >= 2 && AllSpaces(w)
    requires |a| >= 2 && IsSpace(a[0]) && IsSpace(a[1]) && !IsSpace(a[|a| - 1])
    requires b == [] || !IsSpace(b[0])
    ensures Collapse(a + w + b) == Collapse(a) + [' '] + Collapse(b)
    decreases |a|, 0
  {
    var z := [' '] + Collapse(b);
    var a' := DropSpaces(a);
    assert Collapse(a' + w + b) == Collapse(a') + z by {
      DropSpacesKeepsLast(a);
      CollapseRun(a', w, b);
      ConcatAssoc(Collapse(a'), [' '], Collapse(b));
    }
    SplitFront(a, w, b);
    DropSpacesAppend(a, w + b);
    ConcatAssoc(a, w, b);
    ConcatAssoc(a', w, b);
    SameHeadSquashed(a + w + b, a, z);
    ConcatAssoc(Collapse(a), [' '], Collapse(b));
  }

  /** The inductive step when the text opens with a character that stays. */
  lemma {:induction false} CollapseRunAfterChar(a: string, w: string, b: string)
    requires |w| >= 2 && AllSpaces(w)
    requires a != [] && !IsSpace(a[|a| - 1]) && !(|a| >= 2 && IsSpace(a[0]) && IsSpace(a[1]))
    requires b == [] || !IsSpace(b[0])
    ensures Collapse(a + w + b) == Collapse(a) + [' '] + Collapse(b)
    decreases |a|, 0
  {
    var z := [' '] + Collapse(b);
    var rest := a[1..];
    assert Collapse(rest + w + b) == Collapse(rest) + z by {
      assert rest == [] || rest[|rest| - 1] == a[|a| - 1];
      CollapseRun(rest, w, b);
      ConcatAssoc(Collapse(rest), [' '], Collapse(b));
    }
    SplitFront(a, w, b);
    SameHeadKept(a + w + b, a, z);
    ConcatAssoc(Collapse(a), [' '], Collapse(b));
  }

  /** Dropping the leading whitespace of a text that ends visibly keeps its last character. */
  lemma DropSpacesKeepsLast(a: string)
    requires a != [] && IsSpace(a[0]) && !IsSpace(a[|a| - 1])
    ensures var r := DropSpaces(a); 0 < |r| < |a| && r[|r| - 1] == a[|a| - 1]
  {
  }

  /** The front of `a + w + b` is the front of `a`. */
  lemma SplitFront(a: string, w: string, b: string)
    requires a != []
    ensures (a + w + b)[0] == a[0] && (a + w + b)[1..] == a[1..] + w + b
    ensures |a| >= 2 ==> (a + w + b)[1] == a[1]
  {
  }

  /** Two texts with the same character in front, which stays, and tails that collapse
      alike. */
  lemma SameHeadKept(s: string, x: string, z: string)
    requires s != [] && x != [] && s[0] == x[0]
    requires !(|s| >= 2 && IsSpace(s[0]) && IsSpace(s[1])) && !(|x| >= 2 && IsSpace(x[0]) && IsSpace(x[1]))
    requires Collapse(s[1..]) == Collapse(x[1..]) + z
    ensures Collapse(s) == Collapse(x) + z
  {
    ConcatAssoc([x[0]], Collapse(x[1..]), z);
  }

  /** Two texts that open with a whitespace run and collapse alike after it. */
  lemma SameHeadSquashed(s: string, x: string, z: string)
    requires |s| >= 2 && IsSpace(s[0]) && IsSpace(s[1]) && |x| >= 2 && IsSpace(x[0]) && IsSpace(x[1])
    requires Collapse(DropSpaces(s)) == Collapse(DropSpaces(x)) + z
    ensures Collapse(s) == Collapse(x) + z
  {
    ConcatAssoc([' '], Collapse(DropSpaces(x)), z);
  }

  lemma ConcatAssoc(x: string, y: string, z: string)
    ensures x + (y + z) == x + y + z
  {
  }

  /** The run at the very start of the text. */
  lemma CollapseRunAtStart(a: string, w: string, b: string)
    requires a == [] && |w| >= 2 && AllSpaces(w)
    requires b == [] || !IsSpace(b[0])
    ensures Collapse(a + w + b) == Collapse(a) + [' '] + Collapse(b)
  {
    EmptyFront(a, w, b, Collapse(b));
    LeadingRun(w, b);
  }

  lemma EmptyFront(a: string, w: string, b: string, x: string)
    requires a == []
    ensures a + w + b == w + b && Collapse(a) == [] && Collapse(a) + [' '] + x == [' '] + x
  {
  }

  /** A text that opens with a whitespace run. */
  lemma LeadingRun(w: string, b: string)
    requires |w| >= 2 && AllSpaces(w)
    requires b == [] || !IsSpace(b[0])
    ensures Collapse(w + b) == [' '] + Collapse(b)
  {
    var s := w + b;
    assert s[0] == w[0] && s[1] == w[1];
    DropSpacesRun(w, b);
  }

  /** `s` without its trailing whitespace. */
  function DropTrailingSpaces(s: string): (r: string)
    ensures |r| <= |s| && r == s[..|r|]
    ensures r != [] ==> !IsSpace(r[|r| - 1])
    ensures forall k :: |r| <= k < |s| ==> IsSpace(s[k])
  {
    if s != [] && IsSpace(s[|s| - 1]) then DropTrailingSpaces(s[..|s| - 1]) else s
  }

  /** `s.trim()`, for the whitespace characters of `IsSpace`. */
  function Trim(s: string): (r: string)
    ensures r != [] ==> !IsSpace(r[0]) && !IsSpace(r[|r| - 1])
    ensures exists i, j ::
              && 0 <= i <= j <= |s| && r == s[i..j]
              && forall k :: (0 <= k < i || j <= k < |s|) ==> IsSpace(s[k])
  {
    var d := DropSpaces(s);
    var i := |s| - |d|;
    var r := DropTrailingSpaces(d);
    assert r == s[i..i + |r|];
    assert forall k :: i + |r| <= k < |s| ==> IsSpace(s[k]) by {
      forall k | i + |r| <= k < |s|
        ensures IsSpace(s[k])
      {
        assert s[k] == d[k - i];
      }
    }
    r
  }

  /** The characters of a concatenation are those of its parts. */
  lemma {:induction false} VisibleAppend(a: string, b: string)
    ensures Visible(a + b) == Visible(a) + Visible(b)
    decreases |a|
  {
    if a == [] {
      assert a + b == b;
    } else {
      assert (a + b)[1..] == a[1..] + b;
      VisibleAppend(a[1..], b);
    }
  }

  lemma {:induction false} VisibleDropTrailingSpaces(s: string)
    ensures Visible(DropTrailingSpaces(s)) == Visible(s)
    decreases |s|
  {
    if s != [] && IsSpace(s[|s| - 1]) {
      var p := s[..|s| - 1];
      VisibleDropTrailingSpaces(p);
      assert s == p + [s[|s| - 1]];
      VisibleAppend(p, [s[|s| - 1]]);
      assert [s[|s| - 1]][1..] == [];
    }
  }

  /** Trimming only removes whitespace: the other characters survive, in order. */
  lemma {:induction false} TrimKeepsVisible(s: string)
    ensures Visible(Trim(s)) == Visible(s)
  {
    VisibleDropSpaces(s);
    VisibleDropTrailingSpaces(DropSpaces(s));
  }

  /** Trimming a text without double whitespace leaves none. */
  lemma {:induction false} TrimNoDoubleSpace(s: string)
    requires NoDoubleSpace(s)
    ensures NoDoubleSpace(Trim(s))
  {
    var d := DropSpaces(s);
    var o := |s| - |d|;
    var r := DropTrailingSpaces(d);
    assert r == Trim(s);
    forall k | 0 <= k < |r| - 1
      ensures !(IsSpace(r[k]) && IsSpace(r[k + 1]))
    {
      assert r[k] == d[k] == s[o + k];
      assert r[k + 1] == d[k + 1] == s[o + k + 1];
    }
  }

  /** A text with neither leading nor trailing whitespace is left as it is. */
  lemma TrimFixed(s: string)
    requires s != [] ==> !IsSpace(s[0]) && !IsSpace(s[|s| - 1])
    ensures Trim(s) == s
  {
  }

  /** The header value: collapsed, then trimmed. */
  function Normalize(s: string): (r: string)
    ensures NoDoubleSpace(r)
    ensures r != [] ==> !IsSpace(r[0]) && !IsSpace(r[|r| - 1])
  {
    CollapseNoDoubleSpace(s);
    TrimNoDoubleSpace(Collapse(s));
    Trim(Collapse(s))
  }

  /** Squeezing only touches whitespace: the other characters survive, in order. */
  lemma {:induction false} NormalizeKeepsVisible(s: string)
    ensures Visible(Normalize(s)) == Visible(s)
  {
    CollapseKeepsVisible(s);
    TrimKeepsVisible(Collapse(s));
  }

  /** Squeezing an already squeezed value changes nothing. */
  lemma {:induction false} NormalizeIdempotent(s: string)
    ensures Normalize(Normalize(s)) == Normalize(s)
  {
    var n := Normalize(s);
    CollapseFixed(n);
    TrimFixed(n);
  }

  /** The policy as written in the source, line breaks and indentation included. */
  const CSP_TEMPLATE := "\n    frame-ancestors https://dashboard.copilot.app/ https://*.copilot.app/ https://dashboard.assembly.com https://*.spoken.so https://*.myassembly.com ;\n    block-all-mixed-content;\n    upgrade-insecure-requests;\n"

  const CSP_HEADER := "Content-Security-Policy"
  const NONCE_HEADER := "x-nonce"

  /** The keys the two headers are stored under. */
  const CSP_KEY := "content-security-policy"
  const NONCE_KEY := "x-nonce"

  lemma HeaderKeys()
    ensures Lower(CSP_HEADER) == CSP_KEY && Lower(NONCE_HEADER) == NONCE_KEY
    ensures CSP_KEY != NONCE_KEY
  {
    assert |CSP_KEY| != |NONCE_KEY|;
  }

  // ---------------------------------------------------------------------------
  // Headers and the middleware
  // ---------------------------------------------------------------------------

  /** A `Headers` object: header names are case-insensitive and kept lower-cased. */
  class Headers {
    var entries: map<string, string>

    constructor (init: map<string, string>)
      ensures entries == init
    {
      entries := init;
    }

    /** `headers.set(name, value)` */
    method Set(name: string, value: string)
      modifies this
      ensures entries == old(entries)[Lower(name) := value]
    {
      entries := entries[Lower(name) := value];
    }
  }

  /** What the middleware hands on: the request unchanged, or the request with the given
      headers and a response with the given headers. */
  datatype Forwarded = PassThrough | Next(requestHeaders: map<string, string>, responseHeaders: map<string, string>)

  /** `middleware(request)`. `isDevelopment` is `NODE_ENV === 'development'`. */
  method HandleRequest(isDevelopment: bool, request: map<string, string>, nonce: string) returns (r: Forwarded)
    ensures isDevelopment <==> r == PassThrough
    ensures !isDevelopment ==>
      && CSP_KEY in r.requestHeaders && CSP_KEY in r.responseHeaders
      && r.requestHeaders[CSP_KEY] == Normalize(CSP_TEMPLATE)
      && r.responseHeaders[CSP_KEY] == r.requestHeaders[CSP_KEY]
      && NONCE_KEY in r.requestHeaders && r.requestHeaders[NONCE_KEY] == nonce
      && (forall h :: h in request && h != CSP_KEY && h != NONCE_KEY ==>
            h in r.requestHeaders && r.requestHeaders[h] == request[h])
  {
    if isDevelopment {
      return PassThrough;
    }
    var csp := Normalize(CSP_TEMPLATE);
    HeaderKeys();
    var requestHeaders := new Headers(request);
    requestHeaders.Set(NONCE_HEADER, nonce);
    requestHeaders.Set(CSP_HEADER, csp);
    var response := new Headers(map[]);
    response.Set(CSP_HEADER, csp);
    UpdatesKeepOthers(request, NONCE_KEY, nonce, CSP_KEY, csp);
    r := Next(requestHeaders.entries, response.entries);
  }

  /** Setting two different headers stores both and leaves every other header as it was. */
  lemma UpdatesKeepOthers(m: map<string, string>, k1: string, v1: string, k2: string, v2: string)
    requires k1 != k2
    ensures k1 in m[k1 := v1][k2 := v2] && m[k1 := v1][k2 := v2][k1] == v1
    ensures k2 in m[k1 := v1][k2 := v2] && m[k1 := v1][k2 := v2][k2] == v2
    ensures forall h :: h in m && h != k1 && h != k2 ==> h in m[k1 := v1][k2 := v2] && m[k1 := v1][k2 := v2][h] == m[h]
  {
  }
}
