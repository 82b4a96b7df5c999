/** Bytes, options and counting over sequences: vocabulary shared by every other module. */
module Common {

  datatype Option<+T> = None | Some(value: T)

  /** Contents of a `std::vector<char>` or of one pipe message. */
  type Bytes = seq<char>

  function Zeros(n: nat): (b: Bytes)
    ensures |b| == n
  {
    seq(n, _ => '\0')
  }

  /** `std::vector<char>::resize`: keeps the common prefix and zero-fills any growth. */
  function Resize(b: Bytes, n: nat): (r: Bytes)
    ensures |r| == n
    ensures forall k :: 0 <= k < n && k < |b| ==> r[k] == b[k]
  {
    if n <= |b| then b[..n] else b + Zeros(n - |b|)
  }

  lemma ResizeZeroFills(b: Bytes, n: nat, k: nat)
    requires |b| <= k < n
    ensures Resize(b, n)[k] == '\0'
  {
  }

  /** The operating system storing `data` at offset `at` of a buffer. */
  function Overwrite(b: Bytes, at: nat, data: Bytes): (r: Bytes)
    requires at + |data| <= |b|
    ensures |r| == |b|
    ensures r[..at] == b[..at] && r[at..at + |data|] == data
  {
    b[..at] + data + b[at + |data|..]
  }

  function CeilDiv(a: nat, b: nat): nat
    requires b > 0
  {
    (a + b - 1) / b
  }

  function Max(a: int, b: int): int {
    if a < b then b else a
  }

  /** Sum of a weight over a sequence; with a 0/1 weight, a count. */
  function Tally<T>(s: seq<T>, weight: T -> nat): nat {
    if s == [] then 0 else weight(s[0]) + Tally(s[1..], weight)
  }

  lemma {:induction false} TallyConcat<T>(a: seq<T>, b: seq<T>, weight: T -> nat)
    ensures Tally(a + b, weight) == Tally(a, weight) + Tally(b, weight)
  {
    if a == [] {
      assert a + b == b;
    } else {
      assert (a + b)[1..] == a[1..] + b;
      TallyConcat(a[1..], b, weight);
    }
  }

  lemma TallyPush<T>(s: seq<T>, x: T, weight: T -> nat)
    ensures Tally(s + [x], weight) == Tally(s, weight) + weight(x)
  {
    TallyConcat(s, [x], weight);
    assert Tally([x], weight) == weight(x) + Tally([x][1..], weight);
  }

  lemma TallySplit<T>(s: seq<T>, i: nat, weight: T -> nat)
    requires i < |s|
    ensures Tally(s, weight) == Tally(s[..i], weight) + weight(s[i]) + Tally(s[i + 1..], weight)
  {
    assert s == s[..i] + [s[i]] + s[i + 1..];
    TallyConcat(s[..i] + [s[i]], s[i + 1..], weight);
    TallyPush(s[..i], s[i], weight);
  }

  lemma TallyUpdate<T>(s: seq<T>, i: nat, x: T, weight: T -> nat)
    requires i < |s|
    ensures Tally(s[i := x], weight) + weight(s[i]) == Tally(s, weight) + weight(x)
  {
    var u := s[i := x];
    TallySplit(s, i, weight);
    TallySplit(u, i, weight);
    assert u[..i] == s[..i] && u[i + 1..] == s[i + 1..];
  }

  lemma TallyRemove<T>(s: seq<T>, i: nat, weight: T -> nat)
    requires i < |s|
    ensures Tally(s[..i] + s[i + 1..], weight) + weight(s[i]) == Tally(s, weight)
  {
    TallySplit(s, i, weight);
    TallyConcat(s[..i], s[i + 1..], weight);
  }

  lemma {:induction false} TallyMember<T>(s: seq<T>, i: nat, weight: T -> nat)
    requires i < |s|
    ensures weight(s[i]) <= Tally(s, weight)
  {
    TallySplit(s, i, weight);
  }

  lemma {:induction false} TallyZero<T>(s: seq<T>, weight: T -> nat)
    requires forall i :: 0 <= i < |s| ==> weight(s[i]) == 0
    ensures Tally(s, weight) == 0
  {
    if s != [] {
      TallyZero(s[1..], weight);
    }
  }

  lemma {:induction false} TallyAtMost<T>(s: seq<T>, f: T -> nat, g: T -> nat)
    requires forall x :: f(x) <= g(x)
    ensures Tally(s, f) <= Tally(s, g)
  {
    if s != [] {
      TallyAtMost(s[1..], f, g);
    }
  }
}
