/** The moon trails (`updateTrails` in sim_dev/animation.js and
    `onTrailsToggle` in sim_dev/main.js): two fixed-size position buffers
    of `MAX_TRAIL_POINTS` points of three coordinates each, written as ring
    buffers whose write index wraps around. */
module Trails {
  import Config

  /** A world position, as `getWorldPosition` reports it. */
  datatype Vec3 = Vec3(x: real, y: real, z: real)

  /** The length of each `Float32Array` buffer. */
  const BUFFER_LENGTH: int := Config.MAX_TRAIL_POINTS * 3

  /** `(index + 1) % MAX_TRAIL_POINTS`: the next write slot, wrapping to 0
      after the last one. */
  function NextIndex(index: int): (next: int)
    requires 0 <= index < Config.MAX_TRAIL_POINTS
    ensures 0 <= next < Config.MAX_TRAIL_POINTS
    ensures index + 1 < Config.MAX_TRAIL_POINTS ==> next == index + 1
    ensures index + 1 == Config.MAX_TRAIL_POINTS ==> next == 0
  {
    (index + 1) % Config.MAX_TRAIL_POINTS
  }

  /** Every slot index below `MAX_TRAIL_POINTS` addresses three values
      inside a buffer. */
  lemma SlotInBounds(index: int)
    requires 0 <= index < Config.MAX_TRAIL_POINTS
    ensures 0 <= index * 3 && index * 3 + 2 < BUFFER_LENGTH
  {
  }

  /** `positions.set([p.x, p.y, p.z], index * 3)`: the three values of the
      slot are the point and every other value is as it was. */
  function WritePoint(positions: seq<real>, index: int, p: Vec3): (r: seq<real>)
    requires 0 <= index && index * 3 + 3 <= |positions|
    ensures |r| == |positions|
    ensures r[index * 3] == p.x && r[index * 3 + 1] == p.y && r[index * 3 + 2] == p.z
    ensures forall i :: 0 <= i < |r| && !(index * 3 <= i < index * 3 + 3) ==> r[i] == positions[i]
  {
    positions[index * 3 := p.x][index * 3 + 1 := p.y][index * 3 + 2 := p.z]
  }

  /** The trail part of the simulation state. */
  datatype TrailState = TrailState(
    enabled: bool,
    motherPositions: seq<real>,
    daughterPositions: seq<real>,
    motherIndex: int,
    daughterIndex: int)

  /** Both buffers have their full length, and the two write indices are
      the same slot. */
  predicate ValidTrails(t: TrailState) {
    && |t.motherPositions| == BUFFER_LENGTH
    && |t.daughterPositions| == BUFFER_LENGTH
    && 0 <= t.motherIndex < Config.MAX_TRAIL_POINTS
    && t.daughterIndex == t.motherIndex
  }

  /** `updateTrails`: when trails are on, each moon's position is written
      at its index and the index advances; otherwise nothing changes. */
  function UpdateTrails(t: TrailState, mother: Vec3, daughter: Vec3): (r: TrailState)
    requires ValidTrails(t)
    ensures ValidTrails(r)
    ensures !t.enabled ==> r == t
    ensures t.enabled ==> r.motherIndex == NextIndex(t.motherIndex)
  {
    if t.enabled then
      t.(motherPositions := WritePoint(t.motherPositions, t.motherIndex, mother),
         motherIndex := NextIndex(t.motherIndex),
         daughterPositions := WritePoint(t.daughterPositions, t.daughterIndex, daughter),
         daughterIndex := NextIndex(t.daughterIndex))
    else
      t
  }

  /** A trail update changes only the three values of the slot being
      written, in each buffer, and leaves the flag alone. */
  lemma UpdateTouchesOneSlot(t: TrailState, mother: Vec3, daughter: Vec3, i: int)
    requires ValidTrails(t) && 0 <= i < BUFFER_LENGTH
    requires !(t.motherIndex * 3 <= i < t.motherIndex * 3 + 3)
    ensures UpdateTrails(t, mother, daughter).motherPositions[i] == t.motherPositions[i]
    ensures UpdateTrails(t, mother, daughter).daughterPositions[i] == t.daughterPositions[i]
    ensures UpdateTrails(t, mother, daughter).enabled == t.enabled
  {
  }

  /** A buffer of zeros, what `fill(0)` leaves. */
  function Zeros(n: nat): (z: seq<real>)
    ensures |z| == n && forall i :: 0 <= i < n ==> z[i] == 0.0
  {
    seq(n, _ => 0.0)
  }

  /** `onTrailsToggle(enabled)`: switching off clears both buffers and
      rewinds both indices; switching on only sets the flag. */
  function Toggle(t: TrailState, enabled: bool): (r: TrailState)
    requires ValidTrails(t)
    ensures ValidTrails(r)
    ensures r.enabled == enabled
    ensures enabled ==> r == t.(enabled := true)
    ensures !enabled ==> r.motherIndex == 0 && r.daughterIndex == 0
    ensures !enabled ==> forall i :: 0 <= i < BUFFER_LENGTH ==>
                           r.motherPositions[i] == 0.0 && r.daughterPositions[i] == 0.0
  {
    if enabled then
      t.(enabled := true)
    else
      TrailState(false, Zeros(BUFFER_LENGTH), Zeros(BUFFER_LENGTH), 0, 0)
  }

  /** After `k` updates with trails on, starting from a cleared trail, the
      write index is `k` modulo the buffer size: the ring wraps. */
  lemma {:induction false} IndexAfterUpdates(k: nat)
    ensures IndexAfter(k) == k % Config.MAX_TRAIL_POINTS
  {
    if k > 0 {
      IndexAfterUpdates(k - 1);
    }
  }

  /** The write index after `k` updates from slot 0. */
  function IndexAfter(k: nat): (index: int)
    ensures 0 <= index < Config.MAX_TRAIL_POINTS
  {
    if k == 0 then 0 else NextIndex(IndexAfter(k - 1))
  }

  /** `positions.set([x, y, z], index * 3)` on the buffer itself; returns
      the advanced index as `updateTrailPoint` does. */
  method UpdateTrailPoint(positions: array<real>, index: int, p: Vec3) returns (next: int)
    requires positions.Length == BUFFER_LENGTH
    requires 0 <= index < Config.MAX_TRAIL_POINTS
    modifies positions
    ensures positions[..] == WritePoint(old(positions[..]), index, p)
    ensures next == NextIndex(index)
  {
    positions[index * 3] := p.x;
    positions[index * 3 + 1] := p.y;
    positions[index * 3 + 2] := p.z;
    next := (index + 1) % Config.MAX_TRAIL_POINTS;
  }

  /** `positions.fill(0)`. */
  method Fill(positions: array<real>)
    modifies positions
    ensures positions[..] == Zeros(positions.Length)
  {
    forall i | 0 <= i < positions.Length {
      positions[i] := 0.0;
    }
  }
}
