/**
 * The "clean" hostname used for table lookups. The source writes it as three
 * chained replacements, `replace(/^(www\.)/, '')`, then `/^(mobile\.)/`, then
 * `/^(m\.)/`: each prefix is removed at most once, in that order, from what the
 * previous replacement left.
 */
module Hostnames {

  /** `s.replace(/^(prefix)/, '')`: drops one leading `prefix`, if there is one. */
  function StripPrefix(s: string, prefix: string): (r: string)
    ensures prefix <= s ==> s == prefix + r
    ensures !(prefix <= s) ==> r == s
  {
    if prefix <= s then s[|prefix|..] else s
  }

  /** An ordered choice of the three prefixes: `www.` before `mobile.` before `m.`, each at most once. */
  function Chain(www: bool, mobile: bool, m: bool): string {
    (if www then "www." else "") + (if mobile then "mobile." else "") + (if m then "m." else "")
  }

  /**
   * The choice of prefixes is the greedy one for `rest`: a prefix that is left
   * out is not present at that point of the chain.
   */
  predicate Greedy(www: bool, mobile: bool, m: bool, rest: string) {
    && (!www ==> !("www." <= Chain(false, mobile, m) + rest))
    && (!mobile ==> !("mobile." <= Chain(false, false, m) + rest))
    && (!m ==> !("m." <= rest))
  }

  /**
   * The hostname without a leading `www.`, then without a leading `mobile.`,
   * then without a leading `m.`: the hostname is the greedy choice of prefixes
   * followed by the result.
   */
  function CleanHostname(h: string): (r: string)
    ensures exists www: bool, mobile: bool, m: bool :: h == Chain(www, mobile, m) + r && Greedy(www, mobile, m, r)
  {
    var a := StripPrefix(h, "www.");
    var b := StripPrefix(a, "mobile.");
    var c := StripPrefix(b, "m.");
    var www, mobile, m := "www." <= h, "mobile." <= a, "m." <= b;
    assert b == Chain(false, false, m) + c;
    assert a == Chain(false, mobile, m) + c;
    assert h == Chain(www, mobile, m) + c;
    assert Greedy(www, mobile, m, c);
    c
  }

  /** A hostname that starts with none of the three prefixes. */
  predicate Unprefixed(s: string) {
    !("www." <= s) && !("mobile." <= s) && !("m." <= s)
  }

  lemma StepM(m: bool, rest: string)
    requires !m ==> !("m." <= rest)
    ensures StripPrefix(Chain(false, false, m) + rest, "m.") == rest
  {
    if m {
      assert Chain(false, false, m) + rest == "m." + rest;
      assert ("m." + rest)[2..] == rest;
    } else {
      assert Chain(false, false, m) + rest == rest;
    }
  }

  lemma StepMobile(mobile: bool, m: bool, rest: string)
    requires !mobile ==> !("mobile." <= Chain(false, false, m) + rest)
    ensures StripPrefix(Chain(false, mobile, m) + rest, "mobile.") == Chain(false, false, m) + rest
  {
    var s := Chain(false, mobile, m) + rest;
    if mobile {
      assert s == "mobile." + (Chain(false, false, m) + rest);
      assert s[7..] == Chain(false, false, m) + rest;
    } else {
      assert s == Chain(false, false, m) + rest;
    }
  }

  lemma StepWww(www: bool, mobile: bool, m: bool, rest: string)
    requires !www ==> !("www." <= Chain(false, mobile, m) + rest)
    ensures StripPrefix(Chain(www, mobile, m) + rest, "www.") == Chain(false, mobile, m) + rest
  {
    var s := Chain(www, mobile, m) + rest;
    if www {
      assert s == "www." + (Chain(false, mobile, m) + rest);
      assert s[4..] == Chain(false, mobile, m) + rest;
    } else {
      assert s == Chain(false, mobile, m) + rest;
    }
  }

  /**
   * Every hostname is cleaned this way: a greedy choice of the three prefixes
   * is removed completely, and nothing more. With `CleanHostname`'s own
   * contract this fixes the clean hostname of any hostname.
   */
  lemma CleanHostnameOfChain(www: bool, mobile: bool, m: bool, rest: string)
    requires Greedy(www, mobile, m, rest)
    ensures CleanHostname(Chain(www, mobile, m) + rest) == rest
  {
    StepWww(www, mobile, m, rest);
    StepMobile(mobile, m, rest);
    StepM(m, rest);
  }

  /** Any choice of prefixes in front of a hostname that starts with none of them is the greedy one. */
  lemma UnprefixedIsGreedy(www: bool, mobile: bool, m: bool, rest: string)
    requires Unprefixed(rest)
    ensures Greedy(www, mobile, m, rest)
  {
    if !www {
      if mobile || m {
        assert (Chain(false, mobile, m) + rest)[0] == 'm';
      } else {
        assert Chain(false, mobile, m) + rest == rest;
      }
    }
    if !mobile {
      if m {
        assert (Chain(false, false, m) + rest)[1] == '.';
      } else {
        assert Chain(false, false, m) + rest == rest;
      }
    }
  }

  /** `mobile.m.m.x.com` loses `mobile.` and one `m.`. */
  lemma CleanMobileMM()
    ensures CleanHostname("mobile.m.m.x.com") == "m.x.com"
  {
    var rest := "m.x.com";
    assert Chain(false, true, true) + rest == "mobile.m.m.x.com";
    assert !("www." <= Chain(false, true, true) + rest) by { assert "mobile.m.m.x.com"[0] == 'm'; }
    assert Greedy(false, true, true, rest);
    CleanHostnameOfChain(false, true, true, rest);
  }

  /** A hostname without any of the prefixes is its own clean hostname. */
  lemma CleanOfUnprefixed(h: string)
    requires Unprefixed(h)
    ensures CleanHostname(h) == h
  {
    assert Chain(false, false, false) + h == h;
    UnprefixedIsGreedy(false, false, false, h);
    CleanHostnameOfChain(false, false, false, h);
  }

  /** `www.` in front of an unprefixed hostname is removed and nothing else is. */
  lemma CleanOfWww(h: string)
    requires Unprefixed(h)
    ensures CleanHostname("www." + h) == h
  {
    assert Chain(true, false, false) + h == "www." + h;
    UnprefixedIsGreedy(true, false, false, h);
    CleanHostnameOfChain(true, false, false, h);
  }

  /** `www.m.x.com` loses both prefixes. */
  lemma CleanWwwThenM()
    ensures CleanHostname("www.m.x.com") == "x.com"
  {
    var x := "x.com";
    assert Chain(true, false, true) == "www.m.";
    assert "www.m." + x == "www.m.x.com";
    assert Unprefixed(x) by { assert x[0] == 'x'; }
    UnprefixedIsGreedy(true, false, true, x);
    CleanHostnameOfChain(true, false, true, x);
  }

  /** `m.www.x.com` keeps its `www.`: `www.` is only looked for before `m.` is removed. */
  lemma CleanMThenWww()
    ensures CleanHostname("m.www.x.com") == "www.x.com"
  {
    var h := "m.www.x.com";
    assert !("www." <= h) by { assert h[0] == 'm'; }
    assert !("mobile." <= h) by { assert h[1] == '.'; }
    assert h[..2] == "m.";
    assert h[2..] == "www.x.com";
  }

  /** A repeated prefix is removed once: the chain does not iterate. */
  lemma CleanWwwTwice()
    ensures CleanHostname("www.www.x.com") == "www.x.com"
  {
    var h := "www.www.x.com";
    assert h[..4] == "www.";
    var a := h[4..];
    assert a == "www.x.com";
    assert !("mobile." <= a) by { assert a[0] == 'w'; }
    assert !("m." <= a) by { assert a[0] == 'w'; }
  }
}
