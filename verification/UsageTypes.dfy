/** The wire records both sides of the usage protocol share: UsageBatch and UsageDelta of
    proto/bifurcation/v1/machine.proto. */
module UsageTypes {

  type User = string
  type Runtime = string

  const MAX_INT64 := 0x7FFF_FFFF_FFFF_FFFF
  const MAX_SAFE_INTEGER := 0x1F_FFFF_FFFF_FFFF

  datatype Direction = Up | Down

  /** Bytes a user moved during [start, end), in milliseconds since the epoch. */
  datatype Delta = Delta(user: User, start: int, end: int, upload: int, download: int,
                         incomplete: bool, estimated: bool)

  datatype UsageBatch = UsageBatch(runtime: Runtime, deltas: seq<Delta>)

  function Bytes(d: Delta, dir: Direction): int {
    if dir == Up then d.upload else d.download
  }

  /** What a list of deltas charges to one user. */
  ghost function UserBytes(deltas: seq<Delta>, user: User, dir: Direction): int {
    if deltas == [] then 0
    else UserBytes(deltas[..|deltas| - 1], user, dir)
         + var last := deltas[|deltas| - 1]; if last.user == user then Bytes(last, dir) else 0
  }

  lemma {:induction false} UserBytesConcat(a: seq<Delta>, b: seq<Delta>, user: User, dir: Direction)
    ensures UserBytes(a + b, user, dir) == UserBytes(a, user, dir) + UserBytes(b, user, dir)
  {
    if b == [] {
      assert a + b == a;
    } else {
      var n := |b| - 1;
      assert (a + b)[..|a + b| - 1] == a + b[..n];
      UserBytesConcat(a, b[..n], user, dir);
    }
  }

  lemma UserBytesOne(d: Delta, user: User, dir: Direction)
    ensures UserBytes([d], user, dir) == if d.user == user then Bytes(d, dir) else 0
  {
    assert [d][..0] == [];
  }

  /** All deltas of a list of batches, in order. */
  ghost function Flatten(batches: seq<UsageBatch>): seq<Delta> {
    if batches == [] then []
    else Flatten(batches[..|batches| - 1]) + batches[|batches| - 1].deltas
  }
}
