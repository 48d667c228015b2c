// The option list of MediaMuxer/MediaMuxer.c and its replay into koala_muxer_setopt.
module MuxerOptions {
  import opened MediaFrames

  function Lower(c: char): char {
    if 'A' <= c <= 'Z' then c + 32 as char else c
  }

  /** The key as `strcasecmp` sees it. */
  function Fold(s: string): (f: string)
    ensures |f| == |s|
  {
    seq(|s|, i requires 0 <= i < |s| => Lower(s[i]))
  }

  datatype OptNode = OptNode(key: string, value: string)

  /** The index of the node that `getOpt` finds: the first one with this key, or the length of the list. */
  function Find(opts: seq<OptNode>, key: string): (i: nat)
    ensures i <= |opts|
    ensures i < |opts| ==> Fold(opts[i].key) == Fold(key)
    ensures forall k | 0 <= k < i :: Fold(opts[k].key) != Fold(key)
  {
    if opts == [] then 0
    else if Fold(key) == Fold(opts[0].key) then 0
    else
      var i := 1 + Find(opts[1..], key);
      assert forall k | 0 < k < i :: opts[k] == opts[1..][k - 1];
      i
  }

  /** `setOpt`: a known key keeps its node and gets the new value, a new one goes to the front. */
  function WithOpt(opts: seq<OptNode>, key: string, value: string): seq<OptNode> {
    var i := Find(opts, key);
    if i == |opts| then [OptNode(key, value)] + opts else opts[i := opts[i].(value := value)]
  }

  predicate IsSpace(c: char) {
    c == ' ' || '\t' <= c <= '\r'
  }

  predicate IsDigit(c: char) {
    '0' <= c <= '9'
  }

  function Digits(s: string, acc: int): int
    decreases |s|
  {
    if s != [] && IsDigit(s[0]) then Digits(s[1..], acc * 10 + (s[0] as int - '0' as int)) else acc
  }

  /** `atoi`, on unbounded integers. */
  function Atoi(s: string): int
    decreases |s|
  {
    if s == [] then 0
    else if IsSpace(s[0]) then Atoi(s[1..])
    else if s[0] == '-' then -Digits(s[1..], 0)
    else if s[0] == '+' then Digits(s[1..], 0)
    else Digits(s, 0)
  }

  const IO_TIMEOUT := "io_timeout_ms"

  /** `koala_muxer_setopt`: the one option it knows, and -2 for any other. */
  function KoalaSet(io_timeout_ms: int, key: string, value: string): (int, int) {
    if Fold(IO_TIMEOUT) == Fold(key) then (0, Atoi(value)) else (-2, io_timeout_ms)
  }

  class Muxer {
    var opts: seq<OptNode>       // head first
    var io_timeout_ms: int       // of the koala handle
    var replayed: seq<OptNode>   // what muxer_open passed on

    constructor ()
      ensures opts == [] && io_timeout_ms == 0 && replayed == []
    {
      opts, io_timeout_ms, replayed := [], 0, [];
    }

    method GetOpt(key: string) returns (i: nat)
      ensures i == Find(opts, key)
    {
      i := 0;
      while i < |opts|
        invariant 0 <= i <= |opts|
        invariant forall k | 0 <= k < i :: Fold(opts[k].key) != Fold(key)
      {
        if Fold(key) == Fold(opts[i].key) {
          break;
        }
        i := i + 1;
      }
      FindIs(opts, key, i);
    }

    /** `muxer_setopt`; a NULL key or value is refused. */
    method SetOpt(key: Option<string>, value: Option<string>) returns (ret: int)
      modifies this`opts
      ensures key.None? || value.None? ==> ret == -2 && opts == old(opts)
      ensures key.Some? && value.Some? ==> ret == 0 && opts == WithOpt(old(opts), key.value, value.value)
      ensures key.Some? && value.Some? && Find(old(opts), key.value) == |old(opts)| ==>
                opts == [OptNode(key.value, value.value)] + old(opts)
      ensures key.Some? && value.Some? && Find(old(opts), key.value) < |old(opts)| ==>
                var i := Find(old(opts), key.value);
                && |opts| == |old(opts)| && opts[i] == OptNode(old(opts)[i].key, value.value)
                && forall k | 0 <= k < |opts| && k != i :: opts[k] == old(opts)[k]
    {
      if key.None? || value.None? {
        return -2;
      }
      var i := GetOpt(key.value);
      if i == |opts| {
        opts := [OptNode(key.value, value.value)] + opts;
      } else {
        opts := opts[i := OptNode(opts[i].key, value.value)];
      }
      return 0;
    }

    /** The option part of `muxer_open`: every node is passed to the fresh koala handle, from the head. */
    method Open()
      modifies this`io_timeout_ms, this`replayed
      ensures io_timeout_ms == Replay(0, opts) && replayed == opts
    {
      io_timeout_ms, replayed := 0, [];
      var i := 0;
      while i < |opts|
        invariant 0 <= i <= |opts|
        invariant replayed == opts[..i] && io_timeout_ms == Replay(0, opts[..i])
      {
        var (ret, timeout) := KoalaSet(io_timeout_ms, opts[i].key, opts[i].value);
        io_timeout_ms := timeout;
        replayed := replayed + [opts[i]];
        i := i + 1;
        assert opts[..i] == opts[..i - 1] + [opts[i - 1]] && opts[..i][..i - 1] == opts[..i - 1];
      }
      assert opts[..i] == opts;
    }
  }

  lemma FindIs(opts: seq<OptNode>, key: string, i: nat)
    requires i <= |opts| && (i < |opts| ==> Fold(opts[i].key) == Fold(key))
    requires forall k | 0 <= k < i :: Fold(opts[k].key) != Fold(key)
    ensures Find(opts, key) == i
  {
  }

  /** Options applied to a koala handle one after the other. */
  function Replay(io_timeout_ms: int, opts: seq<OptNode>): int {
    if opts == [] then io_timeout_ms
    else
      var last := opts[|opts| - 1];
      KoalaSet(Replay(io_timeout_ms, opts[..|opts| - 1]), last.key, last.value).1
  }

  // ----- Keys and numbers -----

  /** Two characters that differ at most in ASCII case. */
  predicate SameLetter(a: char, b: char) {
    || a == b
    || ('A' <= a <= 'Z' && b as int == a as int + 32)
    || ('A' <= b <= 'Z' && a as int == b as int + 32)
  }

  predicate SameKey(s: string, t: string) {
    |s| == |t| && forall i | 0 <= i < |s| :: SameLetter(s[i], t[i])
  }

  lemma LowerIff(a: char, b: char)
    ensures Lower(a) == Lower(b) <==> SameLetter(a, b)
  {
  }

  /** Keys are the same for `strcasecmp` exactly when they agree character by character up to ASCII case. */
  lemma {:induction false} FoldIff(s: string, t: string)
    ensures Fold(s) == Fold(t) <==> SameKey(s, t)
  {
    if |s| == |t| {
      forall i | 0 <= i < |s|
        ensures Fold(s)[i] == Fold(t)[i] <==> SameLetter(s[i], t[i])
      {
        LowerIff(s[i], t[i]);
      }
      if forall i | 0 <= i < |s| :: SameLetter(s[i], t[i]) {
        assert Fold(s) == Fold(t);
      }
    }
  }

  /** The decimal numeral of `n`. */
  function Numeral(n: nat): (s: string)
    ensures s != [] && forall i | 0 <= i < |s| :: IsDigit(s[i])
  {
    var last := [('0' as int + n % 10) as char];
    if n < 10 then last else Numeral(n / 10) + last
  }

  lemma {:induction false} DigitsAppend(s: string, t: string, acc: int)
    requires forall i | 0 <= i < |s| :: IsDigit(s[i])
    ensures Digits(s + t, acc) == Digits(t, Digits(s, acc))
    decreases |s|
  {
    if s == [] {
      assert s + t == t;
    } else {
      assert (s + t)[1..] == s[1..] + t;
      DigitsAppend(s[1..], t, acc * 10 + (s[0] as int - '0' as int));
    }
  }

  lemma {:induction false} DigitsNumeral(n: nat)
    ensures Digits(Numeral(n), 0) == n
  {
    var last := [('0' as int + n % 10) as char];
    if n >= 10 {
      DigitsAppend(Numeral(n / 10), last, 0);
      DigitsNumeral(n / 10);
    }
    OneDigit(n % 10, if n < 10 then 0 else n / 10);
  }

  lemma OneDigit(d: nat, acc: int)
    requires d < 10
    ensures Digits([('0' as int + d) as char], acc) == acc * 10 + d
  {
    assert [('0' as int + d) as char][1..] == [];
  }

  /** `atoi` skips spaces, takes one sign, and reads digits up to the first character that is none. */
  lemma {:induction false} AtoiReads(spaces: string, sign: string, n: nat, rest: string)
    requires forall i | 0 <= i < |spaces| :: spaces[i] == ' ' || 9 <= spaces[i] as int <= 13
    requires sign == "" || sign == "-" || sign == "+"
    requires rest == "" || !('0' <= rest[0] <= '9')
    ensures Atoi(spaces + sign + Numeral(n) + rest) == if sign == "-" then -(n as int) else n
    decreases |spaces|
  {
    var s := spaces + sign + Numeral(n) + rest;
    if spaces != "" {
      assert s[1..] == spaces[1..] + sign + Numeral(n) + rest;
      AtoiReads(spaces[1..], sign, n, rest);
    } else {
      DigitsAppend(Numeral(n), rest, 0);
      DigitsNumeral(n);
      if sign == "" {
        assert s == Numeral(n) + rest;
      } else {
        assert s[1..] == Numeral(n) + rest;
      }
    }
  }

  /** Anything else at the start, and there is no number. */
  lemma AtoiNothing(s: string)
    requires s != "" ==> s[0] != ' ' && !(9 <= s[0] as int <= 13) && s[0] != '-' && s[0] != '+' && !('0' <= s[0] <= '9')
    ensures Atoi(s) == 0 && Atoi("-" + s) == 0 && Atoi("+" + s) == 0
  {
    assert ("-" + s)[1..] == s && ("+" + s)[1..] == s;
  }

  /** The one option the muxer knows, under any spelling of its case, and -2 for every other. */
  lemma {:induction false} KoalaSetIff(t: int, key: string, n: nat)
    ensures KoalaSet(t, key, Numeral(n)) == if SameKey("io_timeout_ms", key) then (0, n) else (-2, t)
  {
    FoldIff(IO_TIMEOUT, key);
    AtoiReads("", "", n, "");
    assert "" + "" + Numeral(n) + "" == Numeral(n);
  }

  // ----- The list is a map -----

  ghost predicate Distinct(opts: seq<OptNode>) {
    forall i, j | 0 <= i < j < |opts| :: Fold(opts[i].key) != Fold(opts[j].key)
  }

  /** What `getOpt` answers for a folded key. */
  ghost function Lookup(opts: seq<OptNode>, key: string): Option<string> {
    var i := Find(opts, key);
    if i < |opts| then Some(opts[i].value) else None
  }

  /** The list after a history of settings. */
  ghost function Listed(history: seq<OptNode>): seq<OptNode> {
    if history == [] then []
    else WithOpt(Listed(history[..|history| - 1]), history[|history| - 1].key, history[|history| - 1].value)
  }

  /** The last value set for a key, up to case. */
  ghost function LastSet(history: seq<OptNode>, key: string): Option<string> {
    if history == [] then None
    else if Fold(history[|history| - 1].key) == Fold(key) then Some(history[|history| - 1].value)
    else LastSet(history[..|history| - 1], key)
  }

  lemma WithOptKeys(opts: seq<OptNode>, key: string, value: string)
    requires Distinct(opts)
    ensures Distinct(WithOpt(opts, key, value))
  {
    var after := WithOpt(opts, key, value);
    if Find(opts, key) == |opts| {
      forall i, j | 0 <= i < j < |after|
        ensures Fold(after[i].key) != Fold(after[j].key)
      {
        assert after[j] == opts[j - 1];
      }
    }
  }

  lemma WithOptLookup(opts: seq<OptNode>, key: string, value: string, other: string)
    requires Distinct(opts)
    ensures Lookup(WithOpt(opts, key, value), other)
            == if Fold(other) == Fold(key) then Some(value) else Lookup(opts, other)
  {
    var after := WithOpt(opts, key, value);
    var (i, j) := (Find(opts, key), Find(opts, other));
    if Fold(other) == Fold(key) {
      FindIs(opts, other, i);
      FindIs(after, other, if i == |opts| then 0 else i);
    } else if i == |opts| {
      forall k | 0 <= k < j + 1
        ensures Fold(after[k].key) != Fold(other)
      {
      }
      FindIs(after, other, j + 1);
    } else {
      FindIs(after, other, j);
    }
  }

  /** After any history of settings, keys are pairwise distinct up to case and looking one up gives the last
      value set for it. */
  lemma {:induction false} ListIsMap(history: seq<OptNode>, key: string)
    ensures Distinct(Listed(history))
    ensures Lookup(Listed(history), key) == LastSet(history, key)
  {
    if history != [] {
      var before := history[..|history| - 1];
      var last := history[|history| - 1];
      ListIsMap(before, key);
      WithOptKeys(Listed(before), last.key, last.value);
      WithOptLookup(Listed(before), last.key, last.value, key);
    }
  }

  /** On distinct keys the order of the replay does not matter: only what is looked up does. */
  lemma {:induction false} ReplayIsLookup(t: int, opts: seq<OptNode>)
    requires Distinct(opts)
    ensures Replay(t, opts) == match Lookup(opts, IO_TIMEOUT) case Some(v) => Atoi(v) case None => t
  {
    if opts != [] {
      var n := |opts| - 1;
      var before := opts[..n];
      ReplayIsLookup(t, before);
      var i := Find(before, IO_TIMEOUT);
      if Fold(opts[n].key) == Fold(IO_TIMEOUT) {
        assert forall k | 0 <= k < n :: Fold(opts[k].key) != Fold(opts[n].key);
        FindIs(opts, IO_TIMEOUT, n);
      } else if i < n {
        FindIs(opts, IO_TIMEOUT, i);
      } else {
        FindIs(opts, IO_TIMEOUT, n + 1);
      }
    }
  }

  lemma {:induction false} HistoryIsLastSet(t: int, history: seq<OptNode>)
    ensures Replay(t, history) == match LastSet(history, IO_TIMEOUT) case Some(v) => Atoi(v) case None => t
  {
    if history != [] {
      HistoryIsLastSet(t, history[..|history| - 1]);
    }
  }

  /** Any reordering of the list, and the whole history applied directly, leave the same timeout. */
  lemma {:induction false} ReplayEqualsHistory(t: int, history: seq<OptNode>, order: seq<OptNode>)
    requires multiset(order) == multiset(Listed(history))
    ensures Replay(t, order) == Replay(t, history)
  {
    ListIsMap(history, IO_TIMEOUT);
    HistoryIsLastSet(t, history);
    DistinctUpToOrder(Listed(history), order);
    ReplayIsLookup(t, order);
    LookupUpToOrder(Listed(history), order, IO_TIMEOUT);
  }

  lemma DistinctUpToOrder(opts: seq<OptNode>, order: seq<OptNode>)
    requires Distinct(opts) && multiset(order) == multiset(opts)
    ensures Distinct(order)
  {
    if i, j :| 0 <= i < j < |order| && Fold(order[i].key) == Fold(order[j].key) {
      assert order[i] in multiset(opts) && order[j] in multiset(opts);
      var k :| 0 <= k < |opts| && opts[k] == order[i];
      var l :| 0 <= l < |opts| && opts[l] == order[j];
      assert k == l;
      TwiceInSequence(order, i, j);
      OnceInDistinct(opts, k);
      assert false;
    }
  }

  lemma TwiceInSequence(q: seq<OptNode>, i: nat, j: nat)
    requires i < j < |q| && q[i] == q[j]
    ensures multiset(q)[q[i]] >= 2
  {
    assert q == q[..i] + [q[i]] + q[i + 1..j] + [q[j]] + q[j + 1..];
  }

  lemma OnceInDistinct(opts: seq<OptNode>, k: nat)
    requires Distinct(opts) && k < |opts|
    ensures multiset(opts)[opts[k]] == 1
  {
    assert opts == opts[..k] + [opts[k]] + opts[k + 1..];
    assert opts[k] !in opts[..k] && opts[k] !in opts[k + 1..];
  }

  lemma LookupUpToOrder(opts: seq<OptNode>, order: seq<OptNode>, key: string)
    requires Distinct(opts) && Distinct(order) && multiset(order) == multiset(opts)
    ensures Lookup(opts, key) == Lookup(order, key)
  {
    var i := Find(opts, key);
    if i < |opts| {
      assert opts[i] in multiset(order);
      var j :| 0 <= j < |order| && order[j] == opts[i];
      FindIs(order, key, j);
    } else {
      forall j | 0 <= j < |order|
        ensures Fold(order[j].key) != Fold(key)
      {
        assert order[j] in multiset(opts);
        var k :| 0 <= k < |opts| && opts[k] == order[j];
      }
      FindIs(order, key, |order|);
    }
  }
}
