/** DebugDrawer.cs: a batched line renderer. Segments are queued in two fixed-capacity
    buffers, a vertex per end point and an index per vertex, and handed to the graphics
    device as one indexed line list when the buffers are full or the frame is flushed.
    The device calls themselves are left out; what the device is given is recorded as a
    ghost sequence of batches. */
module Drawing {
  import opened Dda

  /** MAX_VERTS and MAX_INDICES: the capacity of the two buffers. */
  const MaxVerts := 4000
  const MaxIndices := 4000

  /** Half the length of each arm of the cross DrawPoint draws. */
  const PointOffset := 4.0

  /** C#'s ushort, the element type of the index buffer. */
  newtype UShort = i: int | 0 <= i < 0x1_0000

  /** The unchecked cast `(ushort)n`: the low 16 bits of a non-negative n. */
  function ToUShort(n: nat): (u: UShort)
    ensures n < 0x1_0000 ==> u as int == n
    ensures (u as int - n) % 0x1_0000 == 0
  {
    (n % 0x1_0000) as UShort
  }

  /** An RGBA colour. */
  datatype Color = Color(r: int, g: int, b: int, a: int)

  /** VertexPositionColor: a position in screen space (z is always 0 here) and a colour. */
  datatype Vertex = Vertex(x: real, y: real, z: real, color: Color)

  function VertexAt(p: Vec, color: Color): Vertex {
    Vertex(p.x, p.y, 0.0, color)
  }

  /** The two vertices of a segment, in the order DrawSegment stores them. */
  function SegmentVertices(s: Segment, color: Color): (vs: seq<Vertex>)
    ensures |vs| == 2
  {
    [VertexAt(s.from, color), VertexAt(s.to, color)]
  }

  /** The vertices DrawPolygon's loop queues for the open path through vs[0], ..., vs[k]:
      each vertex joined to the next. */
  function PathVertices(vs: seq<Vec>, k: nat, color: Color): (r: seq<Vertex>)
    requires k < |vs|
    ensures |r| == 2 * k
  {
    if k == 0 then [] else PathVertices(vs, k - 1, color) + SegmentVertices(Segment(vs[k - 1], vs[k]), color)
  }

  /** The vertices DrawPolygon queues for the first n vertices of vs: the open path, then
      the last vertex joined back to the first. */
  function PolygonVertices(vs: seq<Vec>, n: int, color: Color): seq<Vertex>
    requires 1 <= n <= |vs|
  {
    PathVertices(vs, n - 1, color) + SegmentVertices(Segment(vs[n - 1], vs[0]), color)
  }

  /** Side i of the open path joins vertex i to vertex i + 1. */
  lemma {:induction false} PathSide(vs: seq<Vec>, k: nat, color: Color, i: nat)
    requires k < |vs| && i < k
    ensures PathVertices(vs, k, color)[2 * i] == VertexAt(vs[i], color)
    ensures PathVertices(vs, k, color)[2 * i + 1] == VertexAt(vs[i + 1], color)
  {
    if i < k - 1 {
      PathSide(vs, k - 1, color, i);
    }
  }

  /** A polygon of n vertices has n sides, side i joining vertex i to vertex (i + 1) mod n. */
  lemma PolygonSides(vs: seq<Vec>, n: int, color: Color, i: nat)
    requires 1 <= n <= |vs| && i < n
    ensures |PolygonVertices(vs, n, color)| == 2 * n
    ensures PolygonVertices(vs, n, color)[2 * i] == VertexAt(vs[i], color)
    ensures PolygonVertices(vs, n, color)[2 * i + 1] == VertexAt(vs[(i + 1) % n], color)
  {
    var path := PathVertices(vs, n - 1, color);
    assert PolygonVertices(vs, n, color) == path + SegmentVertices(Segment(vs[n - 1], vs[0]), color);
    if i < n - 1 {
      PathSide(vs, n - 1, color, i);
      assert (i + 1) % n == i + 1;
    } else {
      assert (i + 1) % n == 0;
      assert |path| == 2 * i;
    }
  }

  /** The two arms of the cross DrawPoint draws around p: from top left to bottom right,
      then from top right to bottom left. */
  function PointVertices(p: Vec, color: Color): seq<Vertex> {
    SegmentVertices(Segment(Vec(p.x - PointOffset, p.y - PointOffset), Vec(p.x + PointOffset, p.y + PointOffset)), color) +
    SegmentVertices(Segment(Vec(p.x + PointOffset, p.y - PointOffset), Vec(p.x - PointOffset, p.y + PointOffset)), color)
  }

  /** What one flush hands to the device: the first VertexCount vertices, the first
      IndexCount indices and the number of lines, IndexCount / 2. */
  datatype Batch = Batch(vertices: seq<Vertex>, indices: seq<UShort>, primitiveCount: int)

  /** A batch as DrawSegment and FlushDrawing build it: one index per vertex, index k
      naming vertex k, at least one line and at most 1999. */
  ghost predicate WellFormedBatch(b: Batch) {
    |b.indices| == |b.vertices| == 2 * b.primitiveCount &&
    1 <= b.primitiveCount <= (MaxIndices - 2) / 2 &&
    forall k :: 0 <= k < |b.indices| ==> b.indices[k] as int == k
  }

  /** The vertices the device draws for a batch: line j joins the vertices named by
      indices 2j and 2j + 1. */
  function Drawn(b: Batch): (vs: seq<Vertex>)
    requires 0 <= 2 * b.primitiveCount <= |b.indices|
    requires forall k :: 0 <= k < |b.indices| ==> b.indices[k] as int < |b.vertices|
    ensures |vs| == 2 * b.primitiveCount
    decreases b.primitiveCount
  {
    if b.primitiveCount == 0 then []
    else
      var j := b.primitiveCount - 1;
      Drawn(b.(primitiveCount := j)) + [b.vertices[b.indices[2 * j]], b.vertices[b.indices[2 * j + 1]]]
  }

  /** A well-formed batch draws exactly its vertices, in order: every queued segment is
      drawn and none is drawn twice. */
  lemma DrawnIsQueued(b: Batch)
    requires WellFormedBatch(b)
    ensures Drawn(b) == b.vertices
  {
    DrawnPrefix(b, b.primitiveCount);
  }

  lemma {:induction false} DrawnPrefix(b: Batch, n: nat)
    requires |b.indices| == |b.vertices| && 2 * n <= |b.indices|
    requires forall k :: 0 <= k < |b.indices| ==> b.indices[k] as int == k
    ensures Drawn(b.(primitiveCount := n)) == b.vertices[..2 * n]
  {
    if n > 0 {
      DrawnPrefix(b, n - 1);
      assert b.vertices[..2 * n] == b.vertices[..2 * (n - 1)] + [b.vertices[2 * n - 2], b.vertices[2 * n - 1]];
    }
  }

  /** The vertices of a sequence of batches, one after the other. */
  function Flatten(bs: seq<Batch>): (vs: seq<Vertex>) {
    if bs == [] then [] else Flatten(bs[..|bs| - 1]) + bs[|bs| - 1].vertices
  }

  class DebugDrawer {
    var indices: array<UShort>
    var vertices: array<Vertex>
    var indexCount: int
    var vertexCount: int
    /** The batches handed to the device so far. */
    ghost var submitted: seq<Batch>
    /** Every vertex handed to the device, then every vertex still queued, in order. */
    ghost var stream: seq<Vertex>

    /** Both buffers at capacity; the two counts equal, even, and at most 3998, so that a
        further segment always fits; index k names vertex k; every batch submitted is
        well formed; the stream is the submitted vertices followed by the queued ones. */
    ghost predicate Valid()
      reads this, indices, vertices
    {
      indices.Length == MaxIndices && vertices.Length == MaxVerts &&
      indexCount == vertexCount && indexCount % 2 == 0 && 0 <= indexCount <= MaxIndices - 2 &&
      (forall k :: 0 <= k < indexCount ==> indices[k] as int == k) &&
      (forall b :: b in submitted ==> WellFormedBatch(b)) &&
      stream == Flatten(submitted) + vertices[..vertexCount]
    }

    /** The vertices queued since the last flush. */
    ghost function Pending(): seq<Vertex>
      reads this, vertices
      requires 0 <= vertexCount <= vertices.Length
    {
      vertices[..vertexCount]
    }

    /** The constructor allocates both buffers and calls Begin. */
    constructor ()
      ensures Valid() && fresh(indices) && fresh(vertices)
      ensures submitted == [] && stream == []
    {
      indices := new UShort[MaxIndices];
      vertices := new Vertex[MaxVerts](_ => Vertex(0.0, 0.0, 0.0, Color(0, 0, 0, 0)));
      submitted := [];
      stream := [];
      vertexCount, indexCount := 0, 0;
      new;
      Begin();
    }

    /** Begin (without its projection matrix): both counts go back to 0; queued segments
        that were not flushed are dropped. */
    method Begin()
      requires Valid()
      modifies this`indexCount, this`vertexCount, this`stream
      ensures Valid() && indexCount == 0 && vertexCount == 0 && submitted == old(submitted)
      ensures stream == old(stream)[..|old(stream)| - old(vertexCount)]
    {
      stream := Flatten(submitted);
      vertexCount := 0;
      indexCount := 0;
    }

    /** FlushDrawing: hands the queued lines to the device when there are any, then empties
        the queue; the stream is unchanged. */
    method FlushDrawing()
      requires Valid()
      modifies this`indexCount, this`vertexCount, this`submitted
      ensures Valid() && indexCount == 0 && vertexCount == 0 && stream == old(stream)
      ensures submitted == old(submitted) +
                (if old(indexCount) > 0 then [Batch(old(Pending()), old(indices[..indexCount]), old(indexCount) / 2)] else [])
    {
      if indexCount > 0 {
        submitted := submitted + [Batch(vertices[..vertexCount], indices[..indexCount], indexCount / 2)];
      }
      indexCount := 0;
      vertexCount := 0;
    }

    /** The test Reserve makes room with: the vertices would overflow their buffer, or the
        indices would reach theirs. */
    predicate MustFlush(numVerts: int, numIndices: int)
      reads this`vertexCount, this`indexCount
    {
      vertexCount + numVerts > MaxVerts || indexCount + numIndices >= MaxIndices
    }

    /** Reserve: false exactly when the request exceeds a buffer's capacity on its own;
        otherwise true, after flushing exactly when MustFlush holds. The index test is `>=`,
        so a request that would exactly fill the index buffer flushes too. */
    method Reserve(numVerts: int, numIndices: int) returns (ok: bool)
      requires Valid()
      modifies this`indexCount, this`vertexCount, this`submitted
      ensures Valid() && stream == old(stream)
      ensures ok <==> numVerts <= MaxVerts && numIndices <= MaxIndices
      ensures if ok && old(MustFlush(numVerts, numIndices))
              then indexCount == 0 && |submitted| == |old(submitted)| + (if old(indexCount) > 0 then 1 else 0)
              else indexCount == old(indexCount) && submitted == old(submitted)
    {
      if numVerts > MaxVerts || numIndices > MaxIndices {
        return false;
      }
      if vertexCount + numVerts > MaxVerts || indexCount + numIndices >= MaxIndices {
        FlushDrawing();
      }
      return true;
    }

    /** DrawSegment: queues p1 and p2 as one line, flushing first when the queue is full.
        Nothing queued is lost, and a flush happens exactly when 3998 indices are queued. */
    method DrawSegment(p1: Vec, p2: Vec, color: Color)
      requires Valid()
      modifies this`indexCount, this`vertexCount, this`submitted, this`stream, indices, vertices
      ensures Valid()
      ensures stream == old(stream) + SegmentVertices(Segment(p1, p2), color)
      ensures indexCount == if old(indexCount) == MaxIndices - 2 then 2 else old(indexCount) + 2
      ensures |submitted| == |old(submitted)| + if old(indexCount) == MaxIndices - 2 then 1 else 0
    {
      var ok := Reserve(2, 2);
      if ok {
        Enqueue(p1, p2, color);
      }
    }

    /** The writes of DrawSegment once room is reserved: two indices naming the two new
        vertices, then the two vertices. */
    method Enqueue(p1: Vec, p2: Vec, color: Color)
      requires Valid() && indexCount < MaxIndices - 2
      modifies this`indexCount, this`vertexCount, this`stream, indices, vertices
      ensures Valid() && indexCount == old(indexCount) + 2
      ensures stream == old(stream) + SegmentVertices(Segment(p1, p2), color)
      ensures Pending() == old(Pending()) + SegmentVertices(Segment(p1, p2), color)
    {
      ghost var q0 := Pending();
      indices[indexCount] := ToUShort(vertexCount);
      indexCount := indexCount + 1;
      indices[indexCount] := ToUShort(vertexCount + 1);
      indexCount := indexCount + 1;
      vertices[vertexCount] := VertexAt(p1, color);
      vertexCount := vertexCount + 1;
      vertices[vertexCount] := VertexAt(p2, color);
      vertexCount := vertexCount + 1;
      stream := stream + SegmentVertices(Segment(p1, p2), color);
      assert Pending() == q0 + SegmentVertices(Segment(p1, p2), color);
    }

    /** DrawPoint: a cross of two segments, each arm reaching PointOffset from the point
        along both axes. */
    method DrawPoint(point: Vec, color: Color)
      requires Valid()
      modifies this`indexCount, this`vertexCount, this`submitted, this`stream, indices, vertices
      ensures Valid()
      ensures stream == old(stream) + PointVertices(point, color)
    {
      DrawSegment(Vec(point.x - PointOffset, point.y - PointOffset), Vec(point.x + PointOffset, point.y + PointOffset), color);
      DrawSegment(Vec(point.x + PointOffset, point.y - PointOffset), Vec(point.x - PointOffset, point.y + PointOffset), color);
    }

    /** DrawPolygon: the closed outline through the first n vertices. C# throws for n < 1
        or n beyond the array; those calls are excluded. */
    method DrawPolygon(vs: seq<Vec>, n: int, color: Color)
      requires Valid() && 1 <= n <= |vs|
      modifies this`indexCount, this`vertexCount, this`submitted, this`stream, indices, vertices
      ensures Valid()
      ensures stream == old(stream) + PolygonVertices(vs, n, color)
    {
      var i := 0;
      while i < n - 1
        invariant 0 <= i <= n - 1 && Valid()
        invariant stream == old(stream) + PathVertices(vs, i, color)
      {
        DrawSegment(vs[i], vs[i + 1], color);
        i := i + 1;
      }
      DrawSegment(vs[n - 1], vs[0], color);
    }
  }
}
