/** When the concatenated keys of the limiter and the cache tell their owners apart. */
module Keys {
  import opened Protection

  lemma SplitAtFirstColon(a: string, rest: string, a': string, rest': string)
    requires ':' !in a && ':' !in a' && a + ":" + rest == a' + ":" + rest'
    ensures a == a' && rest == rest'
  {
    var whole := a + ":" + rest;
    assert whole[|a|] == ':' && whole[|a'|] == ':';
    assert forall i :: 0 <= i < |a| ==> whole[i] == a[i];
    assert forall i :: 0 <= i < |a'| ==> whole[i] == a'[i];
    assert a == whole[..|a|] && a' == whole[..|a'|];
    assert rest == whole[|a| + 1..] && rest' == whole[|a'| + 1..];
  }

  /** The route classes in use end in different letters, so user plus class determines both. */
  lemma LimiterKeyIsInjective(user: string, routeClass: string, user': string, routeClass': string)
    requires {routeClass, routeClass'} <= {"read", "transactional"}
    requires LimiterKey(user, routeClass) == LimiterKey(user', routeClass')
    ensures user == user' && routeClass == routeClass'
  {
    assert routeClass in {routeClass, routeClass'} && routeClass' in {routeClass, routeClass'};
    var key := LimiterKey(user, routeClass);
    assert key[|key| - 1] == routeClass[|routeClass| - 1];
    assert key[|key| - 1] == routeClass'[|routeClass'| - 1];
    assert user == key[..|user|] && user' == key[..|user'|];
  }

  /** With no colon in method, path and user, a cache key determines all four parts, whatever the header holds. */
  lemma CacheKeyIsInjective(m: string, p: string, u: string, h: string, m': string, p': string, u': string, h': string)
    requires ':' !in m && ':' !in p && ':' !in u && ':' !in m' && ':' !in p' && ':' !in u'
    requires CacheKey(m, p, u, h) == CacheKey(m', p', u', h')
    ensures m == m' && p == p' && u == u' && h == h'
  {
    hide CacheKey;
    Nested(m, p, u, h);
    Nested(m', p', u', h');
    SplitAtFirstColon(m, p + ":" + (u + ":" + h), m', p' + ":" + (u' + ":" + h'));
    SplitAtFirstColon(p, u + ":" + h, p', u' + ":" + h');
    SplitAtFirstColon(u, h, u', h');
  }

  lemma Nested(m: string, p: string, u: string, h: string)
    ensures CacheKey(m, p, u, h) == m + ":" + (p + ":" + (u + ":" + h))
  {
    assert m + ":" + p + ":" + u + ":" + h == m + ":" + (p + ":" + (u + ":" + h));
  }

  function Colons(s: string): nat {
    if s == "" then 0 else Colons(s[1..]) + if s[0] == ':' then 1 else 0
  }

  lemma {:induction false} ColonsAdd(s: string, t: string)
    ensures Colons(s + t) == Colons(s) + Colons(t)
  {
    if s == "" {
      assert s + t == t;
    } else {
      assert (s + t)[1..] == s[1..] + t;
      ColonsAdd(s[1..], t);
    }
  }

  lemma {:induction false} NoColons(s: string)
    ensures Colons(s) == 0 <==> ':' !in s
  {
    if s != "" {
      NoColons(s[1..]);
      assert s == [s[0]] + s[1..];
    }
  }

  lemma ColonsOfKey(m: string, p: string, u: string, h: string)
    ensures Colons(CacheKey(m, p, u, h)) == 3 + Colons(m) + Colons(p) + Colons(u) + Colons(h)
  {
    hide CacheKey, Colons;
    Nested(m, p, u, h);
    OneColon();
    ColonsAdd(u, ":");
    ColonsAdd(u + ":", h);
    var inner := u + ":" + h;
    ColonsAdd(p, ":");
    ColonsAdd(p + ":", inner);
    var middle := p + ":" + inner;
    ColonsAdd(m, ":");
    ColonsAdd(m + ":", middle);
  }

  lemma OneColon()
    ensures Colons(":") == 1
  {
    assert ":"[1..] == "";
  }

  ghost predicate Unambiguous(m: string, p: string, u: string, h: string) {
    forall m', p', u', h' :: CacheKey(m', p', u', h') == CacheKey(m, p, u, h) ==> m' == m && p' == p && u' == u && h' == h
  }

  /** Exactly when a request's cache key is its own: no part contains a colon. */
  lemma CacheKeyUnambiguousIff(m: string, p: string, u: string, h: string)
    ensures Unambiguous(m, p, u, h) <==> ':' !in m && ':' !in p && ':' !in u && ':' !in h
  {
    if ':' !in m && ':' !in p && ':' !in u && ':' !in h {
      forall m', p', u', h' | CacheKey(m', p', u', h') == CacheKey(m, p, u, h)
        ensures m' == m && p' == p && u' == u && h' == h
      {
        ColonFreeIsUnambiguous(m, p, u, h, m', p', u', h');
      }
    } else {
      var m', p', u', h' := Rival(m, p, u, h);
    }
  }

  lemma ColonFreeIsUnambiguous(m: string, p: string, u: string, h: string, m': string, p': string, u': string, h': string)
    requires ':' !in m && ':' !in p && ':' !in u && ':' !in h
    requires CacheKey(m', p', u', h') == CacheKey(m, p, u, h)
    ensures m' == m && p' == p && u' == u && h' == h
  {
    hide CacheKey, Colons;
    ColonsOfKey(m, p, u, h);
    ColonsOfKey(m', p', u', h');
    NoColons(m); NoColons(p); NoColons(u); NoColons(h);
    NoColons(m'); NoColons(p'); NoColons(u'); NoColons(h');
    CacheKeyIsInjective(m', p', u', h', m, p, u, h);
  }

  lemma CutAtColon(s: string) returns (left: string, right: string)
    requires ':' in s
    ensures s == left + ":" + right
  {
    var i :| 0 <= i < |s| && s[i] == ':';
    left, right := s[..i], s[i + 1..];
  }

  /** A different request with the same cache key, found by moving one separator. */
  lemma Rival(m: string, p: string, u: string, h: string) returns (m': string, p': string, u': string, h': string)
    requires ':' in m || ':' in p || ':' in u || ':' in h
    ensures CacheKey(m', p', u', h') == CacheKey(m, p, u, h)
    ensures !(m' == m && p' == p && u' == u && h' == h)
  {
    if ':' in m {
      var x, y := CutAtColon(m);
      m', p', u', h' := x, y, p, u + ":" + h;
    } else if ':' in p {
      var x, y := CutAtColon(p);
      m', p', u', h' := m, x, y, u + ":" + h;
    } else if ':' in u {
      var x, y := CutAtColon(u);
      m', p', u', h' := m, p, x, y + ":" + h;
    } else {
      var x, y := CutAtColon(h);
      m', p', u', h' := m, p, u + ":" + x, y;
    }
    assert CacheKey(m', p', u', h') == CacheKey(m, p, u, h);
  }
}
