/** A reading of the redirect's URL fragment as the admin UI consumes it: the text after
    the first '#', a route prefix, then `key=value` pairs separated by '&'. The relay builds
    its Location by plain concatenation, so this reading is the partner against which the
    built string is checked. */
module Query {
  import opened Wrappers

  /** Splits s at the first occurrence of c: the text before it, and the text after it
      when c occurs at all. */
  function Cut(s: string, c: char): (r: (string, Option<string>))
    ensures c !in r.0
    ensures r.1.None? <==> c !in s
    ensures r.1.None? ==> r.0 == s
    ensures r.1.Some? ==> s == r.0 + [c] + r.1.value
    decreases |s|
  {
    if s == [] then ("", None)
    else if s[0] == c then ("", Some(s[1..]))
    else
      var rest := Cut(s[1..], c);
      assert s == [s[0]] + s[1..];
      ([s[0]] + rest.0, rest.1)
  }

  /** Cutting at the first c finds exactly the c that was put after a c-free prefix. */
  lemma {:induction false} CutAt(a: string, c: char, b: string)
    requires c !in a
    ensures Cut(a + [c] + b, c) == (a, Some(b))
  {
    if a != [] {
      assert (a + [c] + b)[1..] == a[1..] + [c] + b;
      CutAt(a[1..], c, b);
      assert [a[0]] + a[1..] == a;
    } else {
      assert a + [c] + b == [c] + b;
    }
  }

  /** The pieces of s between occurrences of sep, none of which holds sep. */
  function Split(s: string, sep: char): (parts: seq<string>)
    ensures |parts| >= 1
    ensures forall i :: 0 <= i < |parts| ==> sep !in parts[i]
    decreases |s|
  {
    if s == [] then [""]
    else if s[0] == sep then [""] + Split(s[1..], sep)
    else
      var rest := Split(s[1..], sep);
      [[s[0]] + rest[0]] + rest[1..]
  }

  /** The pieces written out with sep between each two of them. */
  function Join(parts: seq<string>, sep: char): (s: string)
    requires |parts| >= 1
    decreases |parts|
  {
    if |parts| == 1 then parts[0] else parts[0] + [sep] + Join(parts[1..], sep)
  }

  /** A sep-free prefix joins the first piece of whatever follows it. */
  lemma {:induction false} SplitPrefix(a: string, t: string, sep: char)
    requires sep !in a
    ensures Split(a + t, sep) == [a + Split(t, sep)[0]] + Split(t, sep)[1..]
  {
    if a == [] {
      assert a + t == t;
      assert a + Split(t, sep)[0] == Split(t, sep)[0];
    } else {
      assert (a + t)[0] == a[0];
      assert (a + t)[1..] == a[1..] + t;
      SplitPrefix(a[1..], t, sep);
      assert [a[0]] + (a[1..] + Split(t, sep)[0]) == a + Split(t, sep)[0];
    }
  }

  /** Splitting undoes joining when no piece contains the separator. */
  lemma {:induction false} SplitJoin(parts: seq<string>, sep: char)
    requires |parts| >= 1
    requires forall i :: 0 <= i < |parts| ==> sep !in parts[i]
    ensures Split(Join(parts, sep), sep) == parts
  {
    if |parts| == 1 {
      SplitPrefix(parts[0], "", sep);
      assert parts[0] + "" == parts[0];
    } else {
      var tail := Join(parts[1..], sep);
      SplitJoin(parts[1..], sep);
      assert Join(parts, sep) == parts[0] + ([sep] + tail);
      SplitPrefix(parts[0], [sep] + tail, sep);
      assert ([sep] + tail)[1..] == tail;
      assert Split([sep] + tail, sep) == [""] + parts[1..];
      assert parts[0] + "" == parts[0];
    }
  }

  /** Joining undoes splitting, for every string. */
  lemma {:induction false} JoinSplit(s: string, sep: char)
    ensures Join(Split(s, sep), sep) == s
    decreases |s|
  {
    if s == [] {
    } else if s[0] == sep {
      JoinSplit(s[1..], sep);
      assert s == [sep] + s[1..];
    } else {
      var rest := Split(s[1..], sep);
      JoinSplit(s[1..], sep);
      var parts := [[s[0]] + rest[0]] + rest[1..];
      assert parts[1..] == rest[1..];
      if |rest| == 1 {
        assert Join(parts, sep) == [s[0]] + rest[0];
      } else {
        assert Join(parts, sep) == [s[0]] + rest[0] + [sep] + Join(rest[1..], sep);
        assert Join(rest, sep) == rest[0] + [sep] + Join(rest[1..], sep);
      }
      assert s == [s[0]] + s[1..];
    }
  }

  /** One `key=value` piece: the key before the first '=', the value after it
      ("" when there is no '='). */
  function Param(piece: string): (kv: (string, string))
    ensures '=' !in kv.0
    ensures '=' in piece ==> piece == kv.0 + "=" + kv.1
    ensures '=' !in piece ==> kv == (piece, "")
  {
    var (key, value) := Cut(piece, '=');
    (key, if value.Some? then value.value else "")
  }

  function Params(pieces: seq<string>): (ps: seq<(string, string)>)
    ensures |ps| == |pieces|
    ensures forall i :: 0 <= i < |pieces| ==> ps[i] == Param(pieces[i])
    decreases |pieces|
  {
    if pieces == [] then [] else [Param(pieces[0])] + Params(pieces[1..])
  }

  const AuthRoute := "/auth?"

  /** The parameters of the `/auth?` route carried in the fragment of a location,
      or None when the location has no fragment or the fragment names another route. */
  function AuthParams(location: string): (r: Option<seq<(string, string)>>)
    ensures r.Some? ==> '#' in location
  {
    match Cut(location, '#').1
    case None => None
    case Some(fragment) =>
      if |fragment| >= |AuthRoute| && fragment[..|AuthRoute|] == AuthRoute
      then Some(Params(Split(fragment[|AuthRoute|..], '&')))
      else None
  }

  /** A location built as prefix '#' route query, with a '#'-free prefix and
      '&'-free pieces, reads back as exactly the pairs it was built from. */
  lemma ReadBack(prefix: string, pieces: seq<string>)
    requires '#' !in prefix
    requires |pieces| >= 1
    requires forall i :: 0 <= i < |pieces| ==> '&' !in pieces[i]
    ensures AuthParams(prefix + "#" + AuthRoute + Join(pieces, '&')) == Some(Params(pieces))
  {
    var query := Join(pieces, '&');
    var fragment := AuthRoute + query;
    assert prefix + "#" + AuthRoute + query == prefix + ['#'] + fragment;
    CutAt(prefix, '#', fragment);
    assert fragment[|AuthRoute|..] == query;
    SplitJoin(pieces, '&');
  }

  /** The read-back of a location whose route carries four `key=value` pieces. */
  lemma ReadBackFour(prefix: string, k0: string, v0: string, k1: string, v1: string,
                     k2: string, v2: string, k3: string, v3: string)
    requires '#' !in prefix
    requires '=' !in k0 && '=' !in k1 && '=' !in k2 && '=' !in k3
    requires '&' !in k0 + v0 && '&' !in k1 + v1 && '&' !in k2 + v2 && '&' !in k3 + v3
    ensures AuthParams(prefix + "#" + AuthRoute +
                       Join([k0 + "=" + v0, k1 + "=" + v1, k2 + "=" + v2, k3 + "=" + v3], '&')) ==
            Some([(k0, v0), (k1, v1), (k2, v2), (k3, v3)])
  {
    var pieces := [k0 + "=" + v0, k1 + "=" + v1, k2 + "=" + v2, k3 + "=" + v3];
    ReadBack(prefix, pieces);
    ParamOf(k0, v0);
    ParamOf(k1, v1);
    ParamOf(k2, v2);
    ParamOf(k3, v3);
    var ps := Params(pieces);
    assert ps[0] == (k0, v0) && ps[1] == (k1, v1) && ps[2] == (k2, v2) && ps[3] == (k3, v3);
    assert ps == [(k0, v0), (k1, v1), (k2, v2), (k3, v3)];
  }

  /** The read-back of a location whose route carries five `key=value` pieces. */
  lemma ReadBackFive(prefix: string, k0: string, v0: string, k1: string, v1: string,
                     k2: string, v2: string, k3: string, v3: string, k4: string, v4: string)
    requires '#' !in prefix
    requires '=' !in k0 && '=' !in k1 && '=' !in k2 && '=' !in k3 && '=' !in k4
    requires '&' !in k0 + v0 && '&' !in k1 + v1 && '&' !in k2 + v2 && '&' !in k3 + v3 && '&' !in k4 + v4
    ensures AuthParams(prefix + "#" + AuthRoute +
                       Join([k0 + "=" + v0, k1 + "=" + v1, k2 + "=" + v2, k3 + "=" + v3, k4 + "=" + v4], '&')) ==
            Some([(k0, v0), (k1, v1), (k2, v2), (k3, v3), (k4, v4)])
  {
    var pieces := [k0 + "=" + v0, k1 + "=" + v1, k2 + "=" + v2, k3 + "=" + v3, k4 + "=" + v4];
    ReadBack(prefix, pieces);
    ParamOf(k0, v0);
    ParamOf(k1, v1);
    ParamOf(k2, v2);
    ParamOf(k3, v3);
    ParamOf(k4, v4);
    var ps := Params(pieces);
    assert ps[0] == (k0, v0) && ps[1] == (k1, v1) && ps[2] == (k2, v2) && ps[3] == (k3, v3) && ps[4] == (k4, v4);
    assert ps == [(k0, v0), (k1, v1), (k2, v2), (k3, v3), (k4, v4)];
  }

  /** A piece built as key '=' value reads back as that pair when the key has no '='. */
  lemma ParamOf(key: string, value: string)
    requires '=' !in key
    ensures Param(key + "=" + value) == (key, value)
  {
    CutAt(key, '=', value);
  }
}
