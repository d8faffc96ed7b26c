/** Plain JavaScript objects as the client builds them: reading a key,
    assigning a key (an existing key keeps its place, a new one goes last)
    and `Object.assign`. */
module Objects {
  import opened Values

  /** No key is listed twice. */
  ghost predicate NoDup(ks: seq<string>) {
    forall i, j :: 0 <= i < j < |ks| ==> ks[i] != ks[j]
  }

  /** The key list names exactly the keys the object holds, each once. */
  ghost predicate WellFormed(p: Props) {
    (forall k :: k in p.vals <==> k in p.keys) && NoDup(p.keys)
  }

  /** `{}` */
  const Empty: Props := Props([], map[])

  /** `obj[k]`, with `None` for a key the object does not have. */
  function Get(p: Props, k: string): Option<Value> {
    if k in p.vals then Some(p.vals[k]) else None
  }

  /** `obj[k]` as a JavaScript value: `undefined` for a missing key. */
  function Read(p: Props, k: string): Value {
    if k in p.vals then p.vals[k] else Undefined
  }

  /** `obj[k] = v` */
  function Put(p: Props, k: string, v: Value): Props {
    Props(if k in p.vals then p.keys else p.keys + [k], p.vals[k := v])
  }

  /** `if (c) obj[k] = v` */
  function PutIf(p: Props, c: bool, k: string, v: Value): Props {
    if c then Put(p, k, v) else p
  }

  /** After `obj[k] = v` the object is still well formed, k reads as v, every
      other key reads as before, an existing key keeps its place and a new one
      is appended. */
  lemma PutSpec(p: Props, k: string, v: Value)
    requires WellFormed(p)
    ensures WellFormed(Put(p, k, v))
    ensures Get(Put(p, k, v), k) == Some(v)
    ensures forall j :: j != k ==> Get(Put(p, k, v), j) == Get(p, j)
    ensures k in p.keys ==> Put(p, k, v).keys == p.keys
    ensures k !in p.keys ==> Put(p, k, v).keys == p.keys + [k]
  {
  }

  /** s when c holds, nothing otherwise. */
  function When(c: bool, s: string): seq<string> {
    if c then [s] else []
  }

  /** `if (c) obj[k] = v` keeps an object well formed. */
  lemma PutIfWellFormed(p: Props, c: bool, k: string, v: Value)
    requires WellFormed(p)
    ensures WellFormed(PutIf(p, c, k, v))
  {
    PutSpec(p, k, v);
  }

  /** `if (c) obj[k] = v` for a key the object does not have yet: k is
      appended exactly when c holds, with value v, and nothing else changes. */
  lemma PutIfFresh(p: Props, c: bool, k: string, v: Value)
    requires k !in p.vals
    ensures PutIf(p, c, k, v).keys == p.keys + When(c, k)
    ensures Get(PutIf(p, c, k, v), k) == if c then Some(v) else None
    ensures forall j :: j != k ==> Get(PutIf(p, c, k, v), j) == Get(p, j)
    ensures PutIf(p, c, k, v).vals.Keys <= p.vals.Keys + {k}
  {
  }

  /** Assigning the keys ks of src onto p, left to right. */
  function AssignKeys(p: Props, src: Props, ks: seq<string>): Props
    decreases |ks|
  {
    if |ks| == 0 then p else AssignKeys(Put(p, ks[0], Read(src, ks[0])), src, ks[1..])
  }

  /** `Object.assign(p, src)`: every own property of src, in src's order. */
  function AssignAll(p: Props, src: Props): Props {
    AssignKeys(p, src, src.keys)
  }

  lemma {:induction false} GetAssignKeys(p: Props, src: Props, ks: seq<string>, k: string)
    ensures Get(AssignKeys(p, src, ks), k) == if k in ks then Some(Read(src, k)) else Get(p, k)
    decreases |ks|
  {
    if |ks| > 0 {
      GetAssignKeys(Put(p, ks[0], Read(src, ks[0])), src, ks[1..], k);
      assert ks == [ks[0]] + ks[1..];
    }
  }

  /** After `Object.assign(p, src)`, a key of src reads as in src and every
      other key reads as in p. */
  lemma GetAssignAll(p: Props, src: Props, k: string)
    requires WellFormed(src)
    ensures Get(AssignAll(p, src), k) == if k in src.vals then Get(src, k) else Get(p, k)
  {
    GetAssignKeys(p, src, src.keys, k);
  }

  lemma {:induction false} AssignKeysWellFormed(p: Props, src: Props, ks: seq<string>)
    requires WellFormed(p)
    ensures WellFormed(AssignKeys(p, src, ks))
    decreases |ks|
  {
    if |ks| > 0 {
      PutSpec(p, ks[0], Read(src, ks[0]));
      AssignKeysWellFormed(Put(p, ks[0], Read(src, ks[0])), src, ks[1..]);
    }
  }

  /** The keys of ks not already among existing, in the order of ks. */
  function NewKeys(existing: seq<string>, ks: seq<string>): seq<string> {
    if |ks| == 0 then []
    else (if ks[0] in existing then [] else [ks[0]]) + NewKeys(existing, ks[1..])
  }

  lemma {:induction false} NewKeysIgnores(existing: seq<string>, x: string, ks: seq<string>)
    requires x !in ks
    ensures NewKeys(existing + [x], ks) == NewKeys(existing, ks)
  {
    if |ks| > 0 {
      NewKeysIgnores(existing, x, ks[1..]);
    }
  }

  lemma NoDupTail(ks: seq<string>)
    requires NoDup(ks) && |ks| > 0
    ensures NoDup(ks[1..]) && ks[0] !in ks[1..]
  {
    forall i, j | 0 <= i < j < |ks[1..]| ensures ks[1..][i] != ks[1..][j] {
      assert ks[1..][i] == ks[i + 1] && ks[1..][j] == ks[j + 1];
    }
  }

  /** One step of `Object.assign`, seen on the key order. */
  lemma NewKeysStep(p: Props, k: string, v: Value, rest: seq<string>)
    requires k !in rest
    requires k in p.vals <==> k in p.keys
    ensures Put(p, k, v).keys + NewKeys(Put(p, k, v).keys, rest) == p.keys + NewKeys(p.keys, [k] + rest)
  {
    var ks := [k] + rest;
    assert ks[0] == k && ks[1..] == rest;
    if k !in p.keys {
      NewKeysIgnores(p.keys, k, rest);
    }
  }

  lemma {:induction false} KeysAssignKeys(p: Props, src: Props, ks: seq<string>)
    requires WellFormed(p) && NoDup(ks)
    ensures AssignKeys(p, src, ks).keys == p.keys + NewKeys(p.keys, ks)
    decreases |ks|
  {
    if |ks| > 0 {
      PutSpec(p, ks[0], Read(src, ks[0]));
      NoDupTail(ks);
      KeysAssignKeys(Put(p, ks[0], Read(src, ks[0])), src, ks[1..]);
      NewKeysStep(p, ks[0], Read(src, ks[0]), ks[1..]);
      assert ks == [ks[0]] + ks[1..];
    }
  }

  /** `Object.assign` leaves the target's keys where they are and appends the
      source's new keys in the source's order; the result is well formed. */
  lemma KeysAssignAll(p: Props, src: Props)
    requires WellFormed(p) && WellFormed(src)
    ensures AssignAll(p, src).keys == p.keys + NewKeys(p.keys, src.keys)
    ensures WellFormed(AssignAll(p, src))
  {
    KeysAssignKeys(p, src, src.keys);
    AssignKeysWellFormed(p, src, src.keys);
  }
}
