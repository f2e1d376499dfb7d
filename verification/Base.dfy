/** Names shared by all modules. Addresses, datagrams and RPC requests are opaque
    values that are only compared for equality. */
module Base {

  datatype Option<+T> = None | Some(value: T)

  // A socket id; zero means "no socket".
  type Id = nat
  type Addr = nat
  type Packet = nat
  type Req = nat

  const ID_MAX: nat := 0xfffffff

  // Clock readings and expiries are in microseconds.
  const MILLISECOND: int := 1000

  lemma SubsetIsSmaller<T>(a: set<T>, b: set<T>)
    requires a <= b
    ensures |a| <= |b|
  {
    assert b == a + (b - a);
  }

  function Last<T>(s: seq<T>): T
    requires s != []
  {
    s[|s| - 1]
  }

  function Front<T>(s: seq<T>): seq<T>
    requires s != []
  {
    s[..|s| - 1]
  }
}
