/** The five-cubed neighbourhood as five hundred bytes. */
module VoxelEncoding {
  import opened VoxelOrientation

  type Sampler = (int, int, int) -> Block

  datatype Place = Place(feetX: int, feetY: int, feetZ: int)

  predicate InCube(right: int, up: int, forward: int) {
    -RADIUS <= right <= RADIUS && -RADIUS <= up <= RADIUS && -RADIUS <= forward <= RADIUS
  }

  /** The documented position of a cell: up slowest, then forward, then right. */
  function CellIndex(right: int, up: int, forward: int): (i: int)
    requires InCube(right, up, forward)
    ensures 0 <= i < 125
  {
    (up + 2) * 25 + (forward + 2) * 5 + (right + 2)
  }

  function Flag(value: bool): int {
    if value then 1 else 0
  }

  function Property(block: Block, property: int): bool {
    if property == 0 then block.collision
    else if property == 1 then block.fluid
    else if property == 2 then block.hazard
    else block.breakable
  }

  function Sampled(feet: Place, axes: Axes, sampler: Sampler, right: int, up: int, forward: int)
    : Block
  {
    var o := OffsetOf(axes, right, up, forward);
    sampler(feet.feetX + o.x, feet.feetY + o.y, feet.feetZ + o.z)
  }

  /** The block of a cell, from the cell's index alone. */
  function BlockAt(feet: Place, axes: Axes, sampler: Sampler, cell: int): Block {
    Sampled(feet, axes, sampler, cell % 5 - 2, cell / 25 - 2, cell / 5 % 5 - 2)
  }

  /** Byte i of the encoding, from its position alone. */
  function ByteAt(feet: Place, axes: Axes, sampler: Sampler, i: int): int
    requires 0 <= i < ENCODED_BYTES
  {
    Flag(Property(BlockAt(feet, axes, sampler, i / 4), i % 4))
  }

  function Encoding(feet: Place, yaw: real, sampler: Sampler): (bytes: seq<int>)
    ensures |bytes| == ENCODED_BYTES
    ensures forall i :: 0 <= i < |bytes| ==> bytes[i] == ByteAt(feet, FromYaw(yaw), sampler, i)
  {
    seq(ENCODED_BYTES, i requires 0 <= i < ENCODED_BYTES => ByteAt(feet, FromYaw(yaw), sampler, i))
  }

  /** Where the running index stands when a cell is about to be written. */
  lemma IndexOfCell(right: int, up: int, forward: int)
    requires InCube(right, up, forward)
    ensures var cell := CellIndex(right, up, forward);
            cell % 5 - 2 == right && cell / 25 - 2 == up && cell / 5 % 5 - 2 == forward
  {
  }

  /** Writes one block's four flags. */
  method WriteBlock(result: array<int>, index: int, block: Block)
    requires result.Length == ENCODED_BYTES && 0 <= index && index + 4 <= ENCODED_BYTES
    modifies result
    ensures forall p :: 0 <= p < 4 ==> result[index + p] == Flag(Property(block, p))
    ensures forall i :: 0 <= i < ENCODED_BYTES && !(index <= i < index + 4) ==>
              result[i] == old(result[i])
  {
    result[index] := Flag(block.collision);
    result[index + 1] := Flag(block.fluid);
    result[index + 2] := Flag(block.hazard);
    result[index + 3] := Flag(block.breakable);
  }

  predicate Written(result: array<int>, feet: Place, axes: Axes, sampler: Sampler, index: int)
    reads result
    requires result.Length == ENCODED_BYTES && index <= ENCODED_BYTES
  {
    forall i :: 0 <= i < index ==> result[i] == ByteAt(feet, axes, sampler, i)
  }

  /** The next cell in the running order. */
  method WriteCell(result: array<int>, feet: Place, axes: Axes, sampler: Sampler,
                   right: int, up: int, forward: int)
    requires result.Length == ENCODED_BYTES && InCube(right, up, forward)
    requires Written(result, feet, axes, sampler, CellIndex(right, up, forward) * 4)
    modifies result
    ensures Written(result, feet, axes, sampler, CellIndex(right, up, forward) * 4 + 4)
  {
    var offset := OffsetOf(axes, right, up, forward);
    var block := sampler(feet.feetX + offset.x, feet.feetY + offset.y, feet.feetZ + offset.z);
    var index := CellIndex(right, up, forward) * 4;
    WriteBlock(result, index, block);
    IndexOfCell(right, up, forward);
    forall i | 0 <= i < index + 4 ensures result[i] == ByteAt(feet, axes, sampler, i) {
      if i >= index {
        assert i == index + (i - index) && i / 4 == index / 4 && i % 4 == i - index;
      }
    }
  }

  method Encode(feet: Place, yaw: real, sampler: Sampler) returns (result: array<int>)
    ensures fresh(result) && result[..] == Encoding(feet, yaw, sampler)
  {
    var axes := FromYaw(yaw);
    result := new int[ENCODED_BYTES];
    var index := 0;
    for up := -RADIUS to RADIUS + 1
      invariant index == (up + 2) * 100 && Written(result, feet, axes, sampler, index)
    {
      for forward := -RADIUS to RADIUS + 1
        invariant index == (up + 2) * 100 + (forward + 2) * 20
        invariant Written(result, feet, axes, sampler, index)
      {
        for right := -RADIUS to RADIUS + 1
          invariant index == (up + 2) * 100 + (forward + 2) * 20 + (right + 2) * 4
          invariant Written(result, feet, axes, sampler, index)
        {
          WriteCell(result, feet, axes, sampler, right, up, forward);
          index := index + 4;
        }
      }
    }
    assert forall i :: 0 <= i < ENCODED_BYTES ==>
      result[..][i] == Encoding(feet, yaw, sampler)[i];
  }

  // ---------------------------------------------------------------- what is sampled

  /** Each byte is documented: property p of cell (right, up, forward) stands at four times its cell
      index plus p. */
  lemma ByteOfCell(feet: Place, yaw: real, sampler: Sampler,
                   right: int, up: int, forward: int, property: int)
    requires InCube(right, up, forward) && 0 <= property < 4
    ensures Encoding(feet, yaw, sampler)[CellIndex(right, up, forward) * 4 + property]
            == Flag(Property(Sampled(feet, FromYaw(yaw), sampler, right, up, forward), property))
  {
    IndexOfCell(right, up, forward);
    var i := CellIndex(right, up, forward) * 4 + property;
    assert i / 4 == CellIndex(right, up, forward) && i % 4 == property;
  }

  lemma ByteInNumbers(feet: Place, yaw: real, sampler: Sampler,
                      right: int, up: int, forward: int, property: int)
    requires InCube(right, up, forward) && 0 <= property < 4
    ensures var i := 100 * (up + 2) + 20 * (forward + 2) + 4 * (right + 2) + property;
            && 0 <= i < ENCODED_BYTES
            && Encoding(feet, yaw, sampler)[i]
               == Flag(Property(Sampled(feet, FromYaw(yaw), sampler, right, up, forward), property))
  {
    ByteOfCell(feet, yaw, sampler, right, up, forward, property);
    assert CellIndex(right, up, forward) * 4
           == 100 * (up + 2) + 20 * (forward + 2) + 4 * (right + 2);
  }

  /** The documented layout in numbers: a hundred bytes for each layer from the lowest, in it twenty for
      each row from the hindmost, in it four for each cell from the leftmost, and in it whether the
      block collides, is fluid, is a hazard, and breaks. */
  lemma LayoutInNumbers(feet: Place, yaw: real, sampler: Sampler, right: int, up: int, forward: int)
    requires InCube(right, up, forward)
    ensures var first := 100 * (up + 2) + 20 * (forward + 2) + 4 * (right + 2);
            var bytes := Encoding(feet, yaw, sampler);
            var o := OffsetOf(FromYaw(yaw), right, up, forward);
            var block := sampler(feet.feetX + o.x, feet.feetY + o.y, feet.feetZ + o.z);
            && 0 <= first && first + 3 < |bytes|
            && bytes[first] == (if block.collision then 1 else 0)
            && bytes[first + 1] == (if block.fluid then 1 else 0)
            && bytes[first + 2] == (if block.hazard then 1 else 0)
            && bytes[first + 3] == (if block.breakable then 1 else 0)
  {
    ByteInNumbers(feet, yaw, sampler, right, up, forward, 0);
    ByteInNumbers(feet, yaw, sampler, right, up, forward, 1);
    ByteInNumbers(feet, yaw, sampler, right, up, forward, 2);
    ByteInNumbers(feet, yaw, sampler, right, up, forward, 3);
  }

  /** Cells lie along the axes that velocities are projected on: a block's offset moves exactly as far
      forward and to the right as its cell says. */
  lemma CellsFollowAxes(yaw: real, right: int, up: int, forward: int)
    ensures var axes, o := FromYaw(yaw), OffsetOf(FromYaw(yaw), right, up, forward);
            && ForwardVelocity(axes, 1.0, 0.0, o.x as real, o.z as real) == forward as real
            && StrafeVelocity(axes, 1.0, 0.0, o.x as real, o.z as real) == right as real
            && o.y == up
  {
  }

  /** Whatever the yaw, every block of the cube around the feet is sampled for exactly one cell. */
  lemma EachBlockOnce(yaw: real, x: int, y: int, z: int)
    requires InCube(x, y, z)
    ensures exists right, up, forward ::
              InCube(right, up, forward) && OffsetOf(FromYaw(yaw), right, up, forward) == Offset(x, y, z)
    ensures forall right, up, forward, right', up', forward' ::
              OffsetOf(FromYaw(yaw), right, up, forward) == Offset(x, y, z)
              && OffsetOf(FromYaw(yaw), right', up', forward') == Offset(x, y, z) ==>
                right == right' && up == up' && forward == forward'
  {
    var axes := FromYaw(yaw);
    var right := x * axes.rightX + z * axes.rightZ;
    var forward := x * axes.forwardX + z * axes.forwardZ;
    assert OffsetOf(axes, right, y, forward) == Offset(x, y, z);
  }

  /** And no cell looks outside the cube. */
  lemma NothingOutside(yaw: real, right: int, up: int, forward: int)
    requires InCube(right, up, forward)
    ensures var o := OffsetOf(FromYaw(yaw), right, up, forward); InCube(o.x, o.y, o.z)
  {
  }

  // ---------------------------------------------------------------- turning the world

  /** The world turned by a quarter about the player's feet, as yaw turns. */
  function Turned(feet: Place, sampler: Sampler): Sampler {
    (x: int, y: int, z: int) =>
      sampler(feet.feetX + (z - feet.feetZ), y, feet.feetZ - (x - feet.feetX))
  }

  lemma SampledAlike(feet: Place, yaw: real, sampler: Sampler, right: int, up: int, forward: int)
    ensures Sampled(feet, FromYaw(yaw + 90.0), Turned(feet, sampler), right, up, forward)
            == Sampled(feet, FromYaw(yaw), sampler, right, up, forward)
  {
    QuarterTurn(yaw);
    var o := OffsetOf(FromYaw(yaw), right, up, forward);
    assert OffsetOf(FromYaw(yaw + 90.0), right, up, forward) == Offset(-o.z, o.y, o.x);
  }

  lemma BlocksAlike(feet: Place, yaw: real, sampler: Sampler, cell: int)
    ensures BlockAt(feet, FromYaw(yaw + 90.0), Turned(feet, sampler), cell)
            == BlockAt(feet, FromYaw(yaw), sampler, cell)
  {
    SampledAlike(feet, yaw, sampler, cell % 5 - 2, cell / 25 - 2, cell / 5 % 5 - 2);
  }

  /** The encoding is egocentric: turning the world and the player together changes nothing. */
  lemma EncodingIsEgocentric(feet: Place, yaw: real, sampler: Sampler)
    ensures Encoding(feet, yaw + 90.0, Turned(feet, sampler)) == Encoding(feet, yaw, sampler)
  {
    forall i | 0 <= i < ENCODED_BYTES
      ensures Encoding(feet, yaw + 90.0, Turned(feet, sampler))[i] == Encoding(feet, yaw, sampler)[i]
    {
      BlocksAlike(feet, yaw, sampler, i / 4);
    }
  }
}
