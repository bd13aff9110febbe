/** The action log, the string form of its hashes, and what the attested root says about it. */
module ActionLog {
  import opened Merkle

  type Byte = b: nat | b < 256

  /** A 32-byte hash. */
  type Digest = d: seq<Byte> | |d| == 32
    witness [0, 0, 0, 0, 0, 0, 0, 0, 0, 0, 0, 0, 0, 0, 0, 0,
             0, 0, 0, 0, 0, 0, 0, 0, 0, 0, 0, 0, 0, 0, 0, 0]

  const ZERO_DIGEST: Digest := [0, 0, 0, 0, 0, 0, 0, 0, 0, 0, 0, 0, 0, 0, 0, 0,
                                0, 0, 0, 0, 0, 0, 0, 0, 0, 0, 0, 0, 0, 0, 0, 0]

  type PairHash = (Digest, Digest) -> Digest

  datatype Json =
    | Null
    | Bool(b: bool)
    | Number(text: string)
    | Text(s: string)
    | List(items: seq<Json>)
    | Object(fields: map<string, Json>)

  /** The part of an action that is hashed. Results, errors and timestamps are not. */
  datatype Key = Key(index: nat, tool: string, input: Json)

  datatype Action = Action(index: nat, tool: string, input: Json, result: Json, error: string, hash: string)

  /** SHA-256 over the JSON encoding of a key. */
  type LeafHash = Key -> Digest

  function KeyOf(a: Action): Key {
    Key(a.index, a.tool, a.input)
  }

  // ----- The string form of a hash -----

  const PREFIX: string := "sha256:"
  const HEX: string := "0123456789abcdef"

  function HexDigit(c: char): (v: int)
    ensures -1 <= v < 16
  {
    if '0' <= c <= '9' then c as int - '0' as int
    else if 'a' <= c <= 'f' then c as int - 'a' as int + 10
    else if 'A' <= c <= 'F' then c as int - 'A' as int + 10
    else -1
  }

  /** `%x`. */
  function ToHex(bytes: seq<Byte>): string {
    if bytes == [] then "" else [HEX[bytes[0] / 16], HEX[bytes[0] % 16]] + ToHex(bytes[1..])
  }

  /** `hex.DecodeString`: the bytes decoded before the first error. */
  function FromHex(s: string): seq<Byte> {
    if |s| < 2 || HexDigit(s[0]) < 0 || HexDigit(s[1]) < 0 then []
    else [(16 * HexDigit(s[0]) + HexDigit(s[1])) as Byte] + FromHex(s[2..])
  }

  function TrimPrefix(s: string, prefix: string): string {
    if prefix <= s then s[|prefix|..] else s
  }

  /** `copy` into a zeroed 32-byte array. */
  function CopyTo32(bytes: seq<Byte>): Digest {
    seq(32, i requires 0 <= i < 32 => if i < |bytes| then bytes[i] else 0)
  }

  function LeafOf(hash: string): Digest {
    CopyTo32(FromHex(TrimPrefix(hash, PREFIX)))
  }

  function HashString(d: Digest): string {
    PREFIX + ToHex(d)
  }

  lemma HexByte(b: Byte)
    ensures HexDigit(HEX[b / 16]) == b / 16 && HexDigit(HEX[b % 16]) == b % 16
  {
    HexNibble(b / 16);
    HexNibble(b % 16);
  }

  lemma HexNibble(n: nat)
    requires n < 16
    ensures HexDigit(HEX[n]) == n
  {
  }

  lemma {:induction false} HexRoundTrip(bytes: seq<Byte>)
    ensures FromHex(ToHex(bytes)) == bytes
  {
    if bytes != [] {
      HexByte(bytes[0]);
      HexRoundTrip(bytes[1..]);
      assert ToHex(bytes)[2..] == ToHex(bytes[1..]);
    }
  }

  /** The root is computed over the digests that were logged: decoding a logged hash gives it back. */
  lemma HashRoundTrip(d: Digest)
    ensures LeafOf(HashString(d)) == d
  {
    assert TrimPrefix(HashString(d), PREFIX) == ToHex(d);
    HexRoundTrip(d);
  }

  /** A digit counts as written in either case, and nothing else is a digit. */
  lemma HexDigitExact(c: char, v: nat)
    requires v < 16
    ensures HexDigit(c) == v <==> c == "0123456789abcdef"[v] || c == "0123456789ABCDEF"[v]
  {
  }

  /** A logged hash is the prefix and the digits of its bytes, high half first, in lower case. */
  lemma HashStringDigits(d: Digest, k: nat)
    requires k < 32
    ensures |HashString(d)| == 71 && HashString(d)[..7] == "sha256:"
    ensures HashString(d)[7 + 2 * k] == "0123456789abcdef"[d[k] / 16]
    ensures HashString(d)[8 + 2 * k] == "0123456789abcdef"[d[k] % 16]
  {
    ToHexDigits(d, k);
  }

  lemma {:induction false} ToHexDigits(bytes: seq<Byte>, k: nat)
    requires k < |bytes|
    ensures |ToHex(bytes)| == 2 * |bytes|
    ensures ToHex(bytes)[2 * k] == HEX[bytes[k] / 16] && ToHex(bytes)[2 * k + 1] == HEX[bytes[k] % 16]
  {
    ToHexLength(bytes);
    if k > 0 {
      ToHexDigits(bytes[1..], k - 1);
    }
  }

  lemma {:induction false} ToHexLength(bytes: seq<Byte>)
    ensures |ToHex(bytes)| == 2 * |bytes|
  {
    if bytes != [] {
      ToHexLength(bytes[1..]);
    }
  }

  lemma FromHexPair(high: char, low: char, rest: string)
    requires HexDigit(high) >= 0 && HexDigit(low) >= 0
    ensures FromHex([high, low] + rest) == [(16 * HexDigit(high) + HexDigit(low)) as Byte] + FromHex(rest)
  {
    var s := [high, low] + rest;
    assert s[0] == high && s[1] == low && s[2..] == rest;
  }

  lemma ToHexFirst(bytes: seq<Byte>, rest: string)
    requires bytes != []
    ensures ToHex(bytes) + rest == [HEX[bytes[0] / 16], HEX[bytes[0] % 16]] + (ToHex(bytes[1..]) + rest)
  {
  }

  /** Decoding keeps the bytes before the first pair that is none, and gives up there. */
  lemma {:induction false} DecodesUpToFirstBad(bytes: seq<Byte>, rest: string)
    requires FromHex(rest) == []
    ensures FromHex(ToHex(bytes) + rest) == bytes
  {
    if bytes == [] {
      assert ToHex(bytes) + rest == rest;
    } else {
      ToHexFirst(bytes, rest);
      HexByte(bytes[0]);
      FromHexPair(HEX[bytes[0] / 16], HEX[bytes[0] % 16], ToHex(bytes[1..]) + rest);
      DecodesUpToFirstBad(bytes[1..], rest);
    }
  }

  /** What is no pair of digits: too short, or with another character in one of the two places. */
  lemma NoPair(rest: string)
    ensures FromHex(rest) == [] <==> |rest| < 2 || HexDigit(rest[0]) < 0 || HexDigit(rest[1]) < 0
  {
  }

  lemma PrefixTrimmed(rest: string)
    ensures TrimPrefix("sha256:" + rest, PREFIX) == rest
    ensures rest == "" || rest[0] != 's' ==> TrimPrefix(rest, PREFIX) == rest
  {
  }

  /** A short or damaged hash is a leaf padded with zeros, and a missing prefix does not matter. */
  lemma DamagedLeaf(bytes: seq<Byte>, rest: string, i: nat)
    requires |bytes| <= 32 && i < 32 && FromHex(rest) == []
    ensures LeafOf("sha256:" + (ToHex(bytes) + rest))[i] == if i < |bytes| then bytes[i] else 0
    ensures bytes != [] ==> LeafOf(ToHex(bytes) + rest)[i] == if i < |bytes| then bytes[i] else 0
  {
    var text := ToHex(bytes) + rest;
    DecodesUpToFirstBad(bytes, rest);
    if bytes != [] {
      ToHexFirst(bytes, rest);
      HexNibble(bytes[0] / 16);
    }
    PrefixTrimmed(text);
  }

  // ----- The root of a log -----

  function Leaves(hashes: seq<string>): (leaves: seq<Digest>)
    ensures |leaves| == |hashes|
    ensures forall i :: 0 <= i < |hashes| ==> leaves[i] == LeafOf(hashes[i])
  {
    if hashes == [] then [] else [LeafOf(hashes[0])] + Leaves(hashes[1..])
  }

  function LogRoot(pair: PairHash, hashes: seq<string>): Digest {
    if hashes == [] then ZERO_DIGEST else Root(pair, Leaves(hashes))
  }

  /** No log, no root: 32 zero bytes. And a log of one call has that call's hash as its root. */
  lemma SmallestRoots(pair: PairHash, d: Digest, i: nat)
    requires i < 32
    ensures LogRoot(pair, [])[i] == 0
    ensures LogRoot(pair, [HashString(d)]) == d
  {
    HashRoundTrip(d);
  }

  method ComputeMerkleRoot(pair: PairHash, hashes: seq<string>) returns (root: Digest)
    ensures root == LogRoot(pair, hashes)
  {
    if |hashes| == 0 { return ZERO_DIGEST; }
    var leaves := new Digest[|hashes|](_ => ZERO_DIGEST);
    for i := 0 to |hashes|
      invariant forall k :: 0 <= k < i ==> leaves[k] == LeafOf(hashes[k])
    {
      leaves[i] := LeafOf(hashes[i]);
    }
    assert leaves[..] == Leaves(hashes);
    root := MerkleRoot(pair, leaves[..]);
  }

  /** A log as the session records it: entry i has index i and carries its own hash. */
  ghost predicate Recorded(sha: LeafHash, log: seq<Action>) {
    forall i :: 0 <= i < |log| ==> log[i].index == i && log[i].hash == HashString(sha(KeyOf(log[i])))
  }

  function Hashes(log: seq<Action>): (hashes: seq<string>)
    ensures |hashes| == |log|
  {
    seq(|log|, i requires 0 <= i < |log| => log[i].hash)
  }

  ghost function LogHashed(pair: PairHash, log: seq<Action>): set<(Digest, Digest)> {
    Hashed(Leaves(Hashes(log)), pair)
  }

  lemma LeavesOfLog(sha: LeafHash, log: seq<Action>)
    requires Recorded(sha, log)
    ensures forall i :: 0 <= i < |log| ==> Leaves(Hashes(log))[i] == sha(KeyOf(log[i]))
  {
    forall i | 0 <= i < |log| ensures Leaves(Hashes(log))[i] == sha(KeyOf(log[i])) {
      HashRoundTrip(sha(KeyOf(log[i])));
    }
  }

  /** The keys of the two logs do not collide under SHA-256. */
  ghost predicate KeysApart(sha: LeafHash, a: seq<Action>, b: seq<Action>) {
    forall i, j :: 0 <= i < |a| && 0 <= j < |b| && sha(KeyOf(a[i])) == sha(KeyOf(b[j])) ==> KeyOf(a[i]) == KeyOf(b[j])
  }

  /** No collision among the hashes actually computed for the two logs. */
  ghost predicate NoCollision(sha: LeafHash, pair: PairHash, a: seq<Action>, b: seq<Action>) {
    var pairs := LogHashed(pair, a) + LogHashed(pair, b);
    && CollisionFree(pair, pairs)
    && LeavesApart(pair, Leaves(Hashes(a)), pairs)
    && LeavesApart(pair, Leaves(Hashes(b)), pairs)
    && KeysApart(sha, a, b)
  }

  /** The same calls: equal length, and the same tool and input at every position. */
  ghost predicate SameCalls(a: seq<Action>, b: seq<Action>) {
    |a| == |b| && forall i :: 0 <= i < |a| ==> a[i].tool == b[i].tool && a[i].input == b[i].input
  }

  /** A leaf of one log that occurs in the other occurs at its own position: the index is hashed. */
  lemma LeafKnowsItsPlace(sha: LeafHash, a: seq<Action>, b: seq<Action>, i: nat)
    requires Recorded(sha, a) && Recorded(sha, b) && KeysApart(sha, a, b)
    requires i < |a| && Leaves(Hashes(a))[i] in Leaves(Hashes(b))
    ensures i < |b|
  {
    LeavesOfLog(sha, a);
    LeavesOfLog(sha, b);
    var leaves := Leaves(Hashes(b));
    var j :| 0 <= j < |leaves| && leaves[j] == Leaves(Hashes(a))[i];
    assert KeyOf(a[i]) == KeyOf(b[j]);
  }

  lemma NotLonger(sha: LeafHash, a: seq<Action>, b: seq<Action>)
    requires a != [] && Recorded(sha, a) && Recorded(sha, b) && KeysApart(sha, a, b)
    requires Mirrors(Leaves(Hashes(a)), Leaves(Hashes(b)))
    ensures |a| <= |b|
  {
    assert Leaves(Hashes(a))[|a| - 1] in Leaves(Hashes(b));
    LeafKnowsItsPlace(sha, a, b, |a| - 1);
  }

  /** The attested root binds the log. Two non-empty logs, of any lengths, recorded by sessions have the same
      root if and only if they made the same calls with the same inputs, provided the hashes computed for
      them do not collide. */
  lemma RootBindsLog(sha: LeafHash, pair: PairHash, a: seq<Action>, b: seq<Action>)
    requires a != [] && b != [] && Recorded(sha, a) && Recorded(sha, b)
    requires NoCollision(sha, pair, a, b)
    ensures LogRoot(pair, Hashes(a)) == LogRoot(pair, Hashes(b)) <==> SameCalls(a, b)
  {
    LeavesOfLog(sha, a);
    LeavesOfLog(sha, b);
    var la, lb := Leaves(Hashes(a)), Leaves(Hashes(b));
    if LogRoot(pair, Hashes(a)) == LogRoot(pair, Hashes(b)) {
      EqualRootsMirror(pair, la, lb);
      NotLonger(sha, a, b);
      assert KeysApart(sha, b, a);
      NotLonger(sha, b, a);
      forall i | 0 <= i < |a| ensures a[i].tool == b[i].tool && a[i].input == b[i].input {
        assert la[i] == lb[i];
      }
    }
    if SameCalls(a, b) {
      assert forall i :: 0 <= i < |a| ==> KeyOf(a[i]) == KeyOf(b[i]);
      assert la == lb;
    }
  }

  // ----- The hypotheses are satisfiable -----

  function Fill(b: Byte): Digest {
    seq(32, i requires 0 <= i < 32 => b)
  }

  function LoggedCall(sha: LeafHash, index: nat, tool: string, input: Json): Action {
    Action(index, tool, input, Null, "", HashString(sha(Key(index, tool, input))))
  }

  lemma TwoLeaves(pair: PairHash, x: Digest, y: Digest)
    ensures Hashed([x, y], pair) == {(x, y)}
  {
    assert RightOf(2, 0) == 1 && |Level(pair, [x, y])| == 1;
  }

  lemma ShortLogsApart(sha: LeafHash, pair: PairHash, a: seq<Action>, b: seq<Action>, x: Digest, y: Digest)
    requires Leaves(Hashes(a)) == [x] && Leaves(Hashes(b)) == [x, y] && KeysApart(sha, a, b)
    requires pair(x, y) != x && pair(x, y) != y
    ensures NoCollision(sha, pair, a, b)
  {
    TwoLeaves(pair, x, y);
    assert LogHashed(pair, a) + LogHashed(pair, b) == {(x, y)};
  }

  lemma ShortLogsRecorded(sha: LeafHash, first: Action, second: Action, tool: string, input: Json)
    requires first == LoggedCall(sha, 0, tool, input) && second == LoggedCall(sha, 1, tool, input)
    ensures Recorded(sha, [first]) && Leaves(Hashes([first])) == [sha(Key(0, tool, input))]
    ensures Recorded(sha, [first, second])
    ensures Leaves(Hashes([first, second])) == [sha(Key(0, tool, input)), sha(Key(1, tool, input))]
    ensures sha(Key(0, tool, input)) != sha(Key(1, tool, input)) ==> KeysApart(sha, [first], [first, second])
  {
    LeavesOfLog(sha, [first]);
    LeavesOfLog(sha, [first, second]);
  }

  /** What binding assumes of the hashes can hold of logs of different lengths. */
  lemma BindingApplies(tool: string, input: Json)
    returns (sha: LeafHash, pair: PairHash, a: seq<Action>, b: seq<Action>)
    ensures |a| == 1 && |b| == 2 && Recorded(sha, a) && Recorded(sha, b) && NoCollision(sha, pair, a, b)
  {
    sha := (k: Key) => Fill(if k.index == 0 then 0 else 1);
    pair := (x: Digest, y: Digest) => Fill(2);
    assert Fill(0)[0] == 0 && Fill(1)[0] == 1 && Fill(2)[0] == 2;
    var first, second := LoggedCall(sha, 0, tool, input), LoggedCall(sha, 1, tool, input);
    ShortLogsRecorded(sha, first, second, tool, input);
    a, b := [first], [first, second];
    ShortLogsApart(sha, pair, a, b, Fill(0), Fill(1));
  }
}
