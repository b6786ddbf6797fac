/** Values shared by the room hub and the chat hub: connection handles,
    decoded JSON objects, Qt's string trimming, the filter that the
    erase-while-iterating loops over a multimap range perform, and per-socket
    write logs. */
module Common {

  datatype Option<T> = None | Some(value: T)

  /** A connection handle. The source keys every table by the socket pointer;
      here a socket is an opaque number. */
  type Sock = nat

  /** A decoded JSON value: only strings and integers are read by the core. */
  datatype Value = Str(str: string) | Num(num: int) | OtherValue

  type Json = map<string, Value>

  /** `json.value(key).toString()`: the string stored under `key`, or the
      empty string when the key is absent or holds a non-string. */
  function Text(j: Json, key: string): string {
    if key in j && j[key].Str? then j[key].str else ""
  }

  // ---------------------------------------------------------------------
  // QString::trimmed

  /** The characters QChar::isSpace accepts: tab through carriage return,
      space, NEL, NBSP and the Unicode separators. */
  predicate IsSpace(c: char) {
    || c == ' ' || ('\t' <= c <= '\r')
    || c == '\U{85}' || c == '\U{A0}' || c == '\U{1680}'
    || ('\U{2000}' <= c <= '\U{200A}')
    || c == '\U{2028}' || c == '\U{2029}' || c == '\U{202F}' || c == '\U{205F}'
    || c == '\U{3000}'
  }

  predicate AllSpace(s: string) {
    forall i :: 0 <= i < |s| ==> IsSpace(s[i])
  }

  /** Drops the leading whitespace. */
  function TrimStart(s: string): string
    decreases |s|
  {
    if s != [] && IsSpace(s[0]) then TrimStart(s[1..]) else s
  }

  /** Drops the trailing whitespace. */
  function TrimEnd(s: string): string
    decreases |s|
  {
    if s != [] && IsSpace(s[|s| - 1]) then TrimEnd(s[..|s| - 1]) else s
  }

  /** QString::trimmed: whitespace removed from both ends. */
  function Trim(s: string): string {
    TrimEnd(TrimStart(s))
  }

  /** TrimStart keeps a suffix of `s`, what it drops is all whitespace, and
      what is left does not start with it. */
  lemma {:induction false} TrimStartSpec(s: string)
    ensures var r := TrimStart(s);
      && |r| <= |s| && r == s[|s| - |r|..]
      && AllSpace(s[..|s| - |r|])
      && (r == [] || !IsSpace(r[0]))
    decreases |s|
  {
    if s != [] && IsSpace(s[0]) {
      TrimStartSpec(s[1..]);
      var r := TrimStart(s[1..]);
      assert s[..|s| - |r|] == [s[0]] + s[1..][..|s| - 1 - |r|];
    }
  }

  /** TrimEnd keeps a prefix of `s`, what it drops is all whitespace, and
      what is left does not end with it. */
  lemma {:induction false} TrimEndSpec(s: string)
    ensures var r := TrimEnd(s);
      && |r| <= |s| && r == s[..|r|]
      && AllSpace(s[|r|..])
      && (r == [] || !IsSpace(r[|r| - 1]))
    decreases |s|
  {
    if s != [] && IsSpace(s[|s| - 1]) {
      TrimEndSpec(s[..|s| - 1]);
      var r := TrimEnd(s[..|s| - 1]);
      assert s[|r|..] == s[..|s| - 1][|r|..] + [s[|s| - 1]];
    }
  }

  /** The trimmed string is no longer than `s`, neither starts nor ends with
      whitespace, and is empty exactly when `s` is all whitespace. */
  lemma TrimSpec(s: string)
    ensures var r := Trim(s);
      && |r| <= |s|
      && (r == [] || (!IsSpace(r[0]) && !IsSpace(r[|r| - 1])))
      && (r == [] <==> AllSpace(s))
  {
    var a := TrimStart(s);
    var r := TrimEnd(a);
    TrimStartSpec(s);
    TrimEndSpec(a);
    if r == [] {
      assert a == [];
      assert s[..|s| - |a|] == s;
    } else {
      assert r[0] == a[0];
      assert !AllSpace(s) by {
        assert s[|s| - |a|] == a[0];
      }
    }
  }

  lemma {:induction false} TrimStartOfTrimmed(s: string)
    requires s == [] || !IsSpace(s[0])
    ensures TrimStart(s) == s
  {
  }

  lemma {:induction false} TrimEndOfTrimmed(s: string)
    requires s == [] || !IsSpace(s[|s| - 1])
    ensures TrimEnd(s) == s
  {
  }

  /** Trimming twice is trimming once. */
  lemma TrimIdempotent(s: string)
    ensures Trim(Trim(s)) == Trim(s)
  {
    TrimSpec(s);
    TrimOfTrimmed(Trim(s));
  }

  /** A string that neither starts nor ends with whitespace is its own trim. */
  lemma {:induction false} TrimOfTrimmed(t: string)
    requires t == [] || (!IsSpace(t[0]) && !IsSpace(t[|t| - 1]))
    ensures Trim(t) == t
  {
    TrimStartOfTrimmed(t);
    TrimEndOfTrimmed(t);
  }

  // ---------------------------------------------------------------------
  // Sequences of sockets, as a multimap range holds them

  /** No socket occurs twice. */
  ghost predicate NoDup(s: seq<Sock>) {
    forall y :: multiset(s)[y] <= 1
  }

  /** The range with every entry equal to `x` erased, the others kept in
      their order: what the erase-while-iterating loops leave behind. */
  function Without(s: seq<Sock>, x: Sock): seq<Sock>
    decreases |s|
  {
    if s == [] then []
    else Without(s[..|s| - 1], x) + (if s[|s| - 1] == x then [] else [s[|s| - 1]])
  }

  /** Erasing removes every `x` and keeps every other entry with its
      multiplicity. */
  lemma {:induction false} WithoutSpec(s: seq<Sock>, x: Sock)
    ensures x !in Without(s, x)
    ensures forall y :: y != x ==> (y in Without(s, x) <==> y in s)
    ensures multiset(Without(s, x)) == multiset(s)[x := 0]
    decreases |s|
  {
    if s != [] {
      var init, last := s[..|s| - 1], s[|s| - 1];
      assert s == init + [last];
      WithoutSpec(init, x);
      assert multiset(s) == multiset(init) + multiset{last};
    }
  }

  lemma WithoutKeepsNoDup(s: seq<Sock>, x: Sock)
    requires NoDup(s)
    ensures NoDup(Without(s, x))
  {
    WithoutSpec(s, x);
    forall y ensures multiset(Without(s, x))[y] <= 1 {
      assert multiset(s)[y] <= 1;
    }
  }

  /** Erasing a socket that is not in the range changes nothing. */
  lemma {:induction false} WithoutAbsent(s: seq<Sock>, x: Sock)
    requires x !in s
    ensures Without(s, x) == s
    decreases |s|
  {
    if s != [] {
      assert s == s[..|s| - 1] + [s[|s| - 1]];
      WithoutAbsent(s[..|s| - 1], x);
    }
  }

  /** The loop `for (it = range.first; it != range.second; ) if (*it == x)
      it = erase(it); else ++it;` over one range, as a pass that copies the
      entries it keeps. */
  method EraseAll(s: seq<Sock>, x: Sock) returns (r: seq<Sock>)
    ensures r == Without(s, x)
  {
    r := [];
    var i := 0;
    while i < |s|
      invariant 0 <= i <= |s|
      invariant r == Without(s[..i], x)
    {
      assert s[..i + 1][..i] == s[..i];
      if s[i] != x {
        r := r + [s[i]];
      }
      i := i + 1;
    }
    assert s[..|s|] == s;
  }

  lemma NoDupLast(s: seq<Sock>)
    requires NoDup(s) && s != []
    ensures NoDup(s[..|s| - 1]) && s[|s| - 1] !in s[..|s| - 1]
  {
    var init, last := s[..|s| - 1], s[|s| - 1];
    assert s == init + [last];
    assert multiset(s) == multiset(init) + multiset{last};
    forall y ensures multiset(init)[y] <= 1 {
      assert multiset(s)[y] <= 1;
    }
    assert multiset(s)[last] <= 1;
  }

  lemma NoDupPrepend(x: Sock, s: seq<Sock>)
    requires NoDup(s) && x !in s
    ensures NoDup([x] + s) && multiset([x] + s)[x] == 1
  {
    assert multiset([x] + s) == multiset{x} + multiset(s);
    forall y ensures multiset([x] + s)[y] <= 1 {
      assert multiset(s)[y] <= 1;
    }
  }

  // ---------------------------------------------------------------------
  // Per-socket write logs: every `sock->write(...)` appends to its socket's log

  function Get<K(==), T>(m: map<K, seq<T>>, k: K): seq<T> {
    if k in m then m[k] else []
  }

  type Log<T> = map<Sock, seq<T>>

  /** One write to one socket: that socket's log grows by `o`, no other log
      changes. */
  function Append<T>(log: Log<T>, s: Sock, o: T): Log<T> {
    log[s := Get(log, s) + [o]]
  }

  lemma AppendAt<T>(log: Log<T>, s: Sock, o: T, t: Sock)
    ensures Get(Append(log, s, o), t) == Get(log, t) + (if t == s then [o] else [])
  {
  }

  /** One write to every socket of a range, in range order. */
  function AppendAll<T>(log: Log<T>, socks: seq<Sock>, o: T): Log<T>
    decreases |socks|
  {
    if socks == [] then log
    else Append(AppendAll(log, socks[..|socks| - 1], o), socks[|socks| - 1], o)
  }

  /** Over a range without repeats, every socket of the range receives `o`
      exactly once and every other log is unchanged. */
  lemma {:induction false} AppendAllAt<T>(log: Log<T>, socks: seq<Sock>, o: T, t: Sock)
    requires NoDup(socks)
    ensures Get(AppendAll(log, socks, o), t) == Get(log, t) + (if t in socks then [o] else [])
    decreases |socks|
  {
    if socks != [] {
      var init, last := socks[..|socks| - 1], socks[|socks| - 1];
      assert socks == init + [last];
      NoDupLast(socks);
      AppendAllAt(log, init, o, t);
    }
  }

  /** One write to each socket of a set (the order of a hash iteration does
      not matter: each socket receives one packet). */
  function SendAll<T>(log: Log<T>, targets: set<Sock>, o: T): Log<T> {
    map t | t in log.Keys + targets :: Get(log, t) + (if t in targets then [o] else [])
  }

  /** Each socket of the set receives `o` once; no other log changes. */
  lemma SendAllAt<T>(log: Log<T>, targets: set<Sock>, o: T, t: Sock)
    ensures Get(SendAll(log, targets, o), t) == Get(log, t) + (if t in targets then [o] else [])
  {
  }

  lemma SendAllStep<T>(log: Log<T>, done: set<Sock>, t: Sock, o: T)
    requires t !in done
    ensures SendAll(log, done + {t}, o) == Append(SendAll(log, done, o), t, o)
  {
    var a, b := SendAll(log, done + {t}, o), Append(SendAll(log, done, o), t, o);
    assert a.Keys == b.Keys;
    forall k | k in a.Keys ensures a[k] == b[k] {
      assert a[k] == Get(a, k) && b[k] == Get(b, k);
    }
  }

  lemma SendAllNone<T>(log: Log<T>, o: T)
    ensures SendAll(log, {}, o) == log
  {
    var a := SendAll(log, {}, o);
    assert a.Keys == log.Keys;
    forall k | k in a.Keys ensures a[k] == log[k] {
      assert a[k] == Get(a, k);
    }
  }
}
