/** The hash table behind value numbers: `init_val` and `F` with their bucket chains. */
module ValueTable {
  import opened Machine
  import opened ValueNumbers

  const MODULUS: nat := 213

  function SizeBits(size: Size): Word {
    match size
    case W => 0x00
    case H => 0x08
    case B => 0x10
  }

  function OpBits(op: AluOp): Word {
    match op
    case Add => 0x00
    case Sub => 0x10
    case Mul => 0x20
    case Div => 0x30
    case Or => 0x40
    case And => 0x50
    case Lsh => 0x60
    case Rsh => 0x70
  }

  function CodeOf(k: Key): Word {
    match k
    case KImm(_) => 0x00
    case KAbs(size, _) => 0x20 | SizeBits(size)
    case KInd(size, _, _) => 0x40 | SizeBits(size)
    case KLen => 0x80
    case KMsh(_) => 0xb1
    case KNeg(_) => 0x84
    case KAlu(op, src, _, _) => 0x04 | OpBits(op) | (if src.FromX? then 0x08 else 0x00)
  }

  function AsWord(n: nat): Word {
    (n % 0x1_0000_0000) as bv32
  }

  function Hash(k: Key): (h: nat)
    ensures h < MODULUS
  {
    var v0: Word := match k
      case KImm(c) => c
      case KAbs(_, c) => c
      case KInd(_, c, _) => c
      case KLen => 0
      case KMsh(c) => c
      case KNeg(v) => AsWord(v)
      case KAlu(_, _, v, _) => AsWord(v);
    var v1: Word := if k.KInd? then AsWord(k.v) else if k.KAlu? then AsWord(k.v1) else 0;
    (CodeOf(k) ^ (v0 << 4) ^ (v1 << 8)) as nat % MODULUS
  }

  /** The newest of the first `n` keys in bucket `h`, as a link: node `i` has link, and value number,
      `i + 1`, and 0 is the null link. */
  function Newest(hash: Key -> nat, keys: Table, h: nat, n: nat): (r: nat)
    requires n <= |keys|
    ensures r <= n
    ensures r > 0 ==> hash(keys[r - 1]) == h
    ensures forall i :: r <= i < n ==> hash(keys[i]) != h
  {
    if n == 0 then 0 else if hash(keys[n - 1]) == h then n else Newest(hash, keys, h, n - 1)
  }

  lemma {:induction false} NewestStable(hash: Key -> nat, keys: Table, x: Key, h: nat, n: nat)
    requires n <= |keys|
    ensures Newest(hash, keys + [x], h, n) == Newest(hash, keys, h, n)
  {
    if n > 0 {
      assert (keys + [x])[n - 1] == keys[n - 1];
      NewestStable(hash, keys, x, h, n - 1);
    }
  }

  /** Buckets start at their newest node, and each node links to the next older one in its bucket. */
  predicate Chained(hash: Key -> nat, hashtbl: seq<nat>, keys: Table, next: seq<nat>) {
    && |hashtbl| == MODULUS && |next| == |keys|
    && (forall h :: 0 <= h < MODULUS ==> hashtbl[h] == Newest(hash, keys, h, |keys|))
    && (forall i {:trigger next[i]} :: 0 <= i < |keys| ==> next[i] == Newest(hash, keys, hash(keys[i]), i))
  }

  lemma ChainPush(hash: Key -> nat, hashtbl: seq<nat>, keys: Table, next: seq<nat>, k: Key)
    requires Chained(hash, hashtbl, keys, next) && hash(k) < MODULUS
    ensures Chained(hash, hashtbl[hash(k) := |keys| + 1], keys + [k], next + [hashtbl[hash(k)]])
  {
    var keys', next' := keys + [k], next + [hashtbl[hash(k)]];
    forall h | 0 <= h < MODULUS ensures hashtbl[hash(k) := |keys| + 1][h] == Newest(hash, keys', h, |keys'|) {
      NewestStable(hash, keys, k, h, |keys|);
    }
    forall i | 0 <= i < |keys'| ensures next'[i] == Newest(hash, keys', hash(keys'[i]), i) {
      NewestStable(hash, keys, k, hash(keys'[i]), i);
    }
  }

  lemma LookupFound(tbl: Table, k: Key, n: nat)
    requires Proper(tbl) && n <= |tbl|
    requires if n > 0 then tbl[n - 1] == k else forall i :: 0 <= i < |tbl| ==> tbl[i] != k
    ensures Lookup(tbl, k, |tbl|) == n
  {
  }

  class ValueTable {
    const hash: Key -> nat
    var hashtbl: seq<nat>
    /** The node pool, field by field; the next number is `|keys| + 1`. */
    var keys: Table
    var next: seq<nat>

    ghost predicate Valid()
      reads this
    {
      Chained(hash, hashtbl, keys, next) && Proper(keys) && forall k :: hash(k) < MODULUS
    }

    constructor ()
      ensures Valid() && keys == [] && forall k :: hash(k) == Hash(k)
    {
      hash := Hash;
      hashtbl := seq(MODULUS, _ => 0);
      keys, next := [], [];
    }

    method InitVal()
      requires Valid()
      modifies this
      ensures Valid() && keys == []
    {
      hashtbl := seq(MODULUS, _ => 0);
      keys, next := [], [];
    }

    /** Walk the key's bucket. */
    method Find(k: Key) returns (p: nat)
      requires Valid()
      ensures p <= |keys|
      ensures if p > 0 then keys[p - 1] == k else forall i :: 0 <= i < |keys| ==> keys[i] != k
    {
      var h := hash(k);
      p := hashtbl[h];
      while p != 0 && keys[p - 1] != k
        invariant 0 <= p <= |keys|
        invariant p > 0 ==> hash(keys[p - 1]) == h
        invariant forall i :: p <= i < |keys| ==> keys[i] != k
        decreases p
      {
        p := next[p - 1];
      }
    }

    /** `F`: the key's number, or the next number for a new key. */
    method F(k: Key) returns (val: nat)
      requires Valid() && KnownKey(keys, k)
      modifies this
      ensures Valid() && (keys, val) == Intern(old(keys), k)
    {
      val := Find(k);
      LookupFound(keys, k, val);
      if val == 0 {
        var h := hash(k);
        ChainPush(hash, hashtbl, keys, next, k);
        InternProper(keys, k);
        keys, next := keys + [k], next + [hashtbl[h]];
        val := |keys|;
        hashtbl := hashtbl[h := val];
      }
    }
  }
}
