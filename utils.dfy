/** utils.js: the command-name normaliser `toCamelCase`. */
module Utils {
  import opened Strings

  predicate IsLower(c: char) { 'a' <= c <= 'z' }

  /** `toUpperCase` of a lower-case ASCII letter. */
  function Upper(c: char): (u: char)
    requires IsLower(c)
    ensures 'A' <= u <= 'Z'
  {
    (c as int - 32) as char
  }

  /** The regular expression `/_[a-z]/` matches at position `i` of `s`. */
  predicate MatchAt(s: string, i: int)
  {
    0 <= i && i + 1 < |s| && s[i] == '_' && IsLower(s[i + 1])
  }

  /** `s` holds no `_` immediately followed by a lower-case letter. */
  predicate NoMatch(s: string)
  {
    forall i :: 0 <= i < |s| ==> !MatchAt(s, i)
  }

  /** Number of positions at which `/_[a-z]/` matches, counted one position at a time. */
  function MatchCount(s: string): nat
  {
    if |s| < 2 then 0 else (if MatchAt(s, 0) then 1 else 0) + MatchCount(s[1..])
  }

  /** The global replacement `replace(/_[a-z]/g, m => m.toUpperCase().replace('_', ''))`:
      scanning left to right, each `_x` with `x` lower-case becomes `X`. */
  function Capitalize(s: string): string
  {
    if |s| == 0 then ""
    else if MatchAt(s, 0) then [Upper(s[1])] + Capitalize(s[2..])
    else [s[0]] + Capitalize(s[1..])
  }

  /** `toCamelCase`: the first `/` becomes `_`, then every `_x` becomes `X`. */
  function ToCamelCase(s: string): string
  {
    Capitalize(ReplaceFirst(s, '/', '_'))
  }

  /** The first character of `Capitalize(s)` is `s[0]`, or the upper-cased
      letter after a leading `_`. */
  lemma CapitalizeHead(s: string)
    requires |s| > 0
    ensures |Capitalize(s)| > 0
    ensures Capitalize(s)[0] == if MatchAt(s, 0) then Upper(s[1]) else s[0]
  {
  }

  /** The output is the input shortened by one character per match. */
  lemma {:induction false} CapitalizeLength(s: string)
    ensures |Capitalize(s)| == |s| - MatchCount(s)
  {
    if |s| > 0 {
      if MatchAt(s, 0) {
        CapitalizeLength(s[2..]);
        assert !MatchAt(s[1..], 0);
        if |s| > 2 {
          assert s[1..][1..] == s[2..];
        }
      } else {
        CapitalizeLength(s[1..]);
      }
    }
  }

  /** No `_` followed by a lower-case letter survives. */
  lemma {:induction false} CapitalizeNoMatch(s: string)
    ensures NoMatch(Capitalize(s))
  {
    if |s| > 0 {
      var r := Capitalize(s);
      if MatchAt(s, 0) {
        CapitalizeNoMatch(s[2..]);
        assert r == [Upper(s[1])] + Capitalize(s[2..]);
        forall i | 0 <= i < |r| ensures !MatchAt(r, i) {
          if i > 0 {
            assert r[i..] == Capitalize(s[2..])[i - 1..];
            assert !MatchAt(Capitalize(s[2..]), i - 1);
          }
        }
      } else {
        var rest := Capitalize(s[1..]);
        CapitalizeNoMatch(s[1..]);
        assert r == [s[0]] + rest;
        forall i | 0 <= i < |r| ensures !MatchAt(r, i) {
          if i > 0 {
            assert !MatchAt(rest, i - 1);
          } else if |r| > 1 {
            CapitalizeHead(s[1..]);
          }
        }
      }
    }
  }

  /** A string without matches is left as it is. */
  lemma {:induction false} CapitalizeIdentity(s: string)
    requires NoMatch(s)
    ensures Capitalize(s) == s
  {
    if |s| > 0 {
      assert !MatchAt(s, 0);
      assert forall i :: 0 <= i < |s| - 1 ==> s[1..][i] == s[i + 1];
      assert NoMatch(s[1..]) by {
        forall i | 0 <= i < |s[1..]| ensures !MatchAt(s[1..], i) {
          assert !MatchAt(s, i + 1);
        }
      }
      CapitalizeIdentity(s[1..]);
    }
  }

  /** `Capitalize` introduces no character that is neither in its input nor an upper-case letter. */
  lemma {:induction false} CapitalizeChars(s: string, c: char)
    requires c !in s && !('A' <= c <= 'Z')
    ensures c !in Capitalize(s)
  {
    if |s| > 0 {
      if MatchAt(s, 0) {
        assert c !in s[2..];
        CapitalizeChars(s[2..], c);
      } else {
        assert c !in s[1..];
        CapitalizeChars(s[1..], c);
      }
    }
  }

  /** The length of `toCamelCase(s)` is that of `s` less the matches after the slash replacement. */
  lemma ToCamelCaseLength(s: string)
    ensures |ToCamelCase(s)| == |s| - MatchCount(ReplaceFirst(s, '/', '_'))
  {
    CapitalizeLength(ReplaceFirst(s, '/', '_'));
  }

  /** The result never contains `_` followed by a lower-case letter. */
  lemma ToCamelCaseNoMatch(s: string)
    ensures NoMatch(ToCamelCase(s))
  {
    CapitalizeNoMatch(ReplaceFirst(s, '/', '_'));
  }

  /** Names without `/` and `_`, such as `settings`, `update` and `action`, are kept. */
  lemma ToCamelCaseKeeps(s: string)
    requires '/' !in s && '_' !in s
    ensures ToCamelCase(s) == s
  {
    assert NoMatch(s);
    CapitalizeIdentity(s);
  }

  /** With at most one `/` in the input, `toCamelCase` is idempotent. */
  lemma ToCamelCaseIdempotent(s: string)
    requires Count(s, '/') <= 1
    ensures ToCamelCase(ToCamelCase(s)) == ToCamelCase(s)
  {
    var t := ReplaceFirst(s, '/', '_');
    ReplaceFirstCount(s, '/', '_');
    CountZero(t, '/');
    CapitalizeChars(t, '/');
    var r := Capitalize(t);
    assert ReplaceFirst(r, '/', '_') == r;
    CapitalizeNoMatch(t);
    CapitalizeIdentity(r);
  }

  /** Only the first `/` is replaced: a second one stays a slash. */
  lemma ToCamelCaseSecondSlash()
    ensures ToCamelCase("a/b/c") == "aB/c"
  {
    assert ReplaceFirst("a/b/c", '/', '_') == "a_b/c" by {
      ReplaceFirstAt("a/b/c", '/', '_', 1);
      assert "a/b/c"[..1] == "a" && "a/b/c"[2..] == "b/c";
    }
    var t := "a_b/c";
    assert MatchAt(t, 1) && !MatchAt(t, 0);
    assert t[1..] == "_b/c" && t[1..][2..] == "/c" && "/c"[1..] == "c" && "c"[1..] == "";
    assert !MatchAt("/c", 0) && !MatchAt("c", 0);
  }

  /** A snake-case pair of words `p_q` becomes `pQ`. */
  lemma ToCamelCaseSnake(p: string, q: string)
    requires '/' !in p && '_' !in p && '/' !in q && '_' !in q
    requires |q| > 0 && IsLower(q[0])
    ensures ToCamelCase(p + "_" + q) == p + [Upper(q[0])] + q[1..]
  {
    var s := p + "_" + q;
    assert '/' !in s;
    forall i | 0 <= i < |p| ensures !MatchAt(s, i) {
      assert s[i] == p[i];
    }
    CapitalizeSplit(s, |p|);
    var t := s[|p|..];
    assert t == "_" + q && s[..|p|] == p;
    assert MatchAt(t, 0) && t[1] == q[0] && t[2..] == q[1..];
    assert NoMatch(q[1..]) by { assert '_' !in q[1..]; }
    CapitalizeIdentity(q[1..]);
  }

  /** The update key `next_candles` is normalised as the delegator expects. */
  lemma ToCamelCaseNextCandles()
    ensures ToCamelCase("next_candles") == "nextCandles"
  {
    assert "next_candles" == "next" + "_" + "candles";
    ToCamelCaseSnake("next", "candles");
    assert "next" + [Upper('c')] + "andles" == "nextCandles";
  }

  /** `Capitalize` processes a match-free prefix ending before a match position character by character. */
  lemma {:induction false} CapitalizeSplit(s: string, k: nat)
    requires k <= |s|
    requires forall i :: 0 <= i < k ==> !MatchAt(s, i)
    ensures Capitalize(s) == s[..k] + Capitalize(s[k..])
  {
    if k > 0 {
      assert !MatchAt(s, 0);
      forall i | 0 <= i < k - 1 ensures !MatchAt(s[1..], i) {
        assert !MatchAt(s, i + 1);
      }
      CapitalizeSplit(s[1..], k - 1);
      assert s[1..][k - 1..] == s[k..];
      assert s[..k] == [s[0]] + s[1..][..k - 1];
    }
  }
}
