/** The virtual host's board: hex fields keyed by id, the links between adjacent
    fields, the transfer object built from them and the location lookup
    (virtualhost board/BoardData.java, board/FieldLink.java). */
module Board {
  import opened Common
  import opened Values

  /** A link between two fields, held by both; the fields are named by id. */
  datatype FieldLink = FieldLink(fieldA: int, fieldB: int)
  {
    function AsDTO(): (dto: FieldLinkDTO)
      ensures dto.idFieldA == fieldA && dto.idFieldB == fieldB
    {
      FieldLinkDTO(fieldA, fieldB)
    }
  }

  /** A field of the board: its id, its location and the links it takes part in. */
  datatype FieldData = FieldData(id: int, location: Location, links: seq<FieldLink>)
  {
    function AsDTO(): (dto: FieldDataDTO)
      ensures dto.id == id && dto.location == location
    {
      FieldDataDTO(id, location)
    }
  }

  /** The field at the other end of a link, seen from the field `id`. */
  function OtherEnd(link: FieldLink, id: int): int
  {
    if link.fieldA == id then link.fieldB else link.fieldA
  }

  // ---------------------------------------------------------------- the hex grid

  /** The board spans the rows -RangeZ..RangeZ, each with the columns -RangeX..RangeX-1. */
  const RangeZ: int := 5
  const RangeX: int := 5
  const RowLength: int := 2 * RangeX
  const FieldCount: int := (2 * RangeZ + 1) * RowLength

  /** Half the distance between the centres of two neighbours in a row, `FIELD_RADIUS *
      sqrt(3) / 2`, and the distance between two rows, `1.5 * FIELD_RADIUS`, for a
      field radius of 0.5 (the square root as its single-precision value). */
  const HalfDx: real := 0.4330127
  const Dz: real := 0.75

  /** The row and the column of a field; ids are handed out row by row. */
  function TileZ(id: int): int { id / RowLength - RangeZ }
  function TileX(id: int): int { id % RowLength - RangeX }

  /** The horizontal position in half neighbour distances: every row with an even
      number is shifted by half a neighbour distance. */
  function HalfColumn(id: int): int
  {
    2 * TileX(id) - (if TileZ(id) % 2 == 0 then 1 else 0)
  }

  /** The location the initialisation gives the field with this id. */
  function GridLocation(id: int): Location
  {
    Location(HalfColumn(id) as real * HalfDx, 0.0, TileZ(id) as real * Dz)
  }

  /** Two fields are neighbours when their centres are one neighbour distance apart.
      With the offsets `dx` (in half neighbour distances) and `dz` (in rows) the squared
      distance is proportional to `dx * dx + 3 * dz * dz`, which equals 4 exactly for
      the offsets below. */
  predicate Adjacent(a: int, b: int)
  {
    var dx, dz := HalfColumn(a) - HalfColumn(b), TileZ(a) - TileZ(b);
    (dz == 0 && (dx == 2 || dx == -2)) || ((dz == 1 || dz == -1) && (dx == 1 || dx == -1))
  }

  lemma AdjacentIsSymmetric(a: int, b: int)
    ensures Adjacent(a, b) <==> Adjacent(b, a)
  {
  }

  /** The links the field `k` holds towards lower ids among `0..m-1`, in id order. */
  function LinksBelow(k: int, m: int): (links: seq<FieldLink>)
    decreases m
  {
    if m <= 0 then [] else LinksBelow(k, m - 1) + (if Adjacent(k, m - 1) then [FieldLink(k, m - 1)] else [])
  }

  /** The links the field `k` holds from higher ids among `lo..hi-1`, in id order. */
  function LinksAbove(k: int, lo: int, hi: int): (links: seq<FieldLink>)
    decreases hi - lo
  {
    if hi <= lo then [] else LinksAbove(k, lo, hi - 1) + (if Adjacent(hi - 1, k) then [FieldLink(hi - 1, k)] else [])
  }

  /** The links of field `k` once the fields `0..j-1` have been linked to all their
      lower neighbours. */
  function LinksAfter(k: int, j: int): seq<FieldLink>
  {
    if k < j then LinksBelow(k, k) + LinksAbove(k, k + 1, j) else []
  }

  /** The links of field `k` on the finished board. */
  function GridLinks(k: int): seq<FieldLink>
  {
    LinksAfter(k, FieldCount)
  }

  /** Every link below `m` joins `k` to a lower neighbour, with `k` as its first field. */
  lemma {:induction false} LinksBelowShape(k: int, m: int, l: FieldLink)
    requires l in LinksBelow(k, m)
    ensures l.fieldA == k && 0 <= l.fieldB < m && Adjacent(k, l.fieldB)
    decreases m
  {
    if m > 0 {
      if l !in LinksBelow(k, m - 1) {
        assert l == FieldLink(k, m - 1);
      } else {
        LinksBelowShape(k, m - 1, l);
      }
    }
  }

  /** Every link from `lo..hi-1` joins a higher neighbour to `k`, with `k` second. */
  lemma {:induction false} LinksAboveShape(k: int, lo: int, hi: int, l: FieldLink)
    requires l in LinksAbove(k, lo, hi)
    ensures l.fieldB == k && lo <= l.fieldA < hi && Adjacent(l.fieldA, k)
    decreases hi - lo
  {
    if hi > lo {
      if l !in LinksAbove(k, lo, hi - 1) {
        assert l == FieldLink(hi - 1, k);
      } else {
        LinksAboveShape(k, lo, hi - 1, l);
      }
    }
  }

  /** Every lower neighbour below `m` gets its link. */
  lemma {:induction false} LinksBelowComplete(k: int, m: int, b: int)
    requires 0 <= b < m && Adjacent(k, b)
    ensures FieldLink(k, b) in LinksBelow(k, m)
    decreases m
  {
    if b < m - 1 {
      LinksBelowComplete(k, m - 1, b);
    }
  }

  /** Every higher neighbour in `lo..hi-1` gets its link. */
  lemma {:induction false} LinksAboveComplete(k: int, lo: int, hi: int, a: int)
    requires lo <= a < hi && Adjacent(a, k)
    ensures FieldLink(a, k) in LinksAbove(k, lo, hi)
    decreases hi - lo
  {
    if a < hi - 1 {
      LinksAboveComplete(k, lo, hi - 1, a);
    }
  }

  /** One link per pair of neighbours, held by both: a link in the list of a field
      joins that field to a neighbour, the higher id first, and the neighbour holds
      the same link. */
  lemma LinkHeldByBothEnds(k: int, l: FieldLink)
    requires 0 <= k < FieldCount && l in GridLinks(k)
    ensures l.fieldA > l.fieldB && (l.fieldA == k || l.fieldB == k)
    ensures Adjacent(l.fieldA, l.fieldB) && 0 <= l.fieldB && l.fieldA < FieldCount
    ensures l in GridLinks(l.fieldA) && l in GridLinks(l.fieldB)
  {
    if l in LinksBelow(k, k) {
      LinksBelowShape(k, k, l);
      LinksAboveComplete(l.fieldB, l.fieldB + 1, FieldCount, k);
    } else {
      LinksAboveShape(k, k + 1, FieldCount, l);
      LinksBelowComplete(l.fieldA, l.fieldA, k);
    }
  }

  /** Every pair of neighbours on the board is linked. */
  lemma NeighboursAreLinked(a: int, b: int)
    requires 0 <= b < a < FieldCount && Adjacent(a, b)
    ensures FieldLink(a, b) in GridLinks(a) && FieldLink(a, b) in GridLinks(b)
  {
    LinksBelowComplete(a, a, b);
    LinksAboveComplete(b, b + 1, FieldCount, a);
  }

  // ---------------------------------------------------------------- the board

  /** Every link of every field joins that field to a field of the board. */
  ghost predicate WellFormed(fields: map<int, FieldData>)
  {
    forall k :: k in fields ==>
      fields[k].id == k &&
      forall i :: 0 <= i < |fields[k].links| ==>
        var l := fields[k].links[i];
        (l.fieldA == k || l.fieldB == k) && l.fieldA in fields && l.fieldB in fields
  }

  /** All fields laid out, and the fields `0..j-1` linked to their lower neighbours. */
  ghost predicate LinkedBelow(fields: map<int, FieldData>, j: int)
  {
    && (forall k :: k in fields <==> 0 <= k < FieldCount)
    && (forall k :: k in fields ==> fields[k] == FieldData(k, GridLocation(k), LinksAfter(k, j)))
  }

  /** The fields and links as the initialisation lays them out. */
  ghost predicate IsGrid(fields: map<int, FieldData>)
  {
    && (forall k :: k in fields <==> 0 <= k < FieldCount)
    && (forall k :: k in fields ==>
          fields[k] == FieldData(k, GridLocation(k), GridLinks(k)))
  }

  lemma GridIsWellFormed(fields: map<int, FieldData>)
    requires IsGrid(fields)
    ensures WellFormed(fields)
  {
    forall k, i | k in fields && 0 <= i < |fields[k].links|
      ensures var l := fields[k].links[i];
        (l.fieldA == k || l.fieldB == k) && l.fieldA in fields && l.fieldB in fields
    {
      LinkHeldByBothEnds(k, fields[k].links[i]);
    }
  }

  /** The link objects of all fields, as transfer objects. */
  function AllLinkDTOs(fields: map<int, FieldData>): set<FieldLinkDTO>
  {
    set k, i | k in fields && 0 <= i < |fields[k].links| :: fields[k].links[i].AsDTO()
  }

  /** `dto` is a transfer object of the board `fields`: one field DTO per field in id
      order, and every link DTO of the fields exactly once. */
  ghost predicate Describes(fields: map<int, FieldData>, dto: BoardDataDTO)
    requires IsGrid(fields)
  {
    && |dto.fields| == FieldCount
    && (forall k :: 0 <= k < FieldCount ==> dto.fields[k] == fields[k].AsDTO())
    && NoRepeats(dto.links)
    && (forall d :: d in dto.links <==> d in AllLinkDTOs(fields))
  }

  /** On the finished board the link set holds exactly one entry per pair of
      neighbours, the higher id first. */
  lemma {:induction false} GridLinkDTOs(fields: map<int, FieldData>)
    requires IsGrid(fields)
    ensures AllLinkDTOs(fields) ==
      set a, b | 0 <= b < a < FieldCount && Adjacent(a, b) :: FieldLinkDTO(a, b)
  {
    var s := set a, b | 0 <= b < a < FieldCount && Adjacent(a, b) :: FieldLinkDTO(a, b);
    forall d | d in AllLinkDTOs(fields) ensures d in s
    {
      var k, i :| k in fields && 0 <= i < |fields[k].links| && d == fields[k].links[i].AsDTO();
      LinkHeldByBothEnds(k, fields[k].links[i]);
    }
    forall d | d in s ensures d in AllLinkDTOs(fields)
    {
      var a, b :| 0 <= b < a < FieldCount && Adjacent(a, b) && d == FieldLinkDTO(a, b);
      NeighboursAreLinked(a, b);
      var links := fields[a].links;
      var i :| 0 <= i < |links| && links[i] == FieldLink(a, b);
      assert d == fields[a].links[i].AsDTO();
    }
  }

  /** The ids come out of the row and column loops as `(tileZ + RangeZ) * RowLength +
      (tileX + RangeX)`. */
  lemma IdOfTile(tileZ: int, tileX: int)
    requires -RangeZ <= tileZ <= RangeZ && -RangeX <= tileX < RangeX
    ensures var id := (tileZ + RangeZ) * RowLength + (tileX + RangeX);
      TileZ(id) == tileZ && TileX(id) == tileX
  {
  }

  /** The board model of the virtual host. */
  class BoardData {
    /** The fields by id. */
    var fields: map<int, FieldData>

    /** Lays out `FieldCount` fields row by row with ids `0..FieldCount-1`, then links
        every pair of neighbours once, the link held by both fields. The map is walked
        in ascending id order, the order a hash map of these small integer keys
        yields. */
    constructor ()
      ensures Valid()
    {
      fields := map[];
      new;
      var nextId := 0;
      var tileZ := -RangeZ;
      while tileZ <= RangeZ
        invariant -RangeZ <= tileZ <= RangeZ + 1
        invariant nextId == (tileZ + RangeZ) * RowLength
        invariant forall k :: k in fields <==> 0 <= k < nextId
        invariant forall k :: k in fields ==> fields[k] == FieldData(k, GridLocation(k), [])
      {
        var tileX := -RangeX;
        while tileX < RangeX
          invariant -RangeX <= tileX <= RangeX
          invariant nextId == (tileZ + RangeZ) * RowLength + (tileX + RangeX)
          invariant forall k :: k in fields <==> 0 <= k < nextId
          invariant forall k :: k in fields ==> fields[k] == FieldData(k, GridLocation(k), [])
        {
          var x := 2 * tileX - (if tileZ % 2 == 0 then 1 else 0);
          var location := Location(x as real * HalfDx, 0.0, tileZ as real * Dz);
          IdOfTile(tileZ, tileX);
          fields := fields[nextId := FieldData(nextId, location, [])];
          nextId := nextId + 1;
          tileX := tileX + 1;
        }
        tileZ := tileZ + 1;
      }
      assert LinkedBelow(fields, 0);
      LinkAll();
    }

    /** The board as the initialisation leaves it; nothing changes it afterwards. */
    ghost predicate Valid()
      reads this
    {
      IsGrid(fields)
    }

    /** For each field, and each field with a lower id, a pair of neighbours gets one
        link, appended to both fields. */
    method LinkAll()
      requires LinkedBelow(fields, 0)
      modifies this
      ensures IsGrid(fields)
    {
      var j := 0;
      while j < FieldCount
        invariant 0 <= j <= FieldCount
        invariant LinkedBelow(fields, j)
      {
        LinkToLower(j);
        j := j + 1;
      }
      LinkedBelowAllIsGrid(fields);
    }

    /** Links the field `j` with every lower neighbour, appending each link to both. */
    method LinkToLower(j: int)
      requires 0 <= j < FieldCount
      requires LinkedBelow(fields, j)
      modifies this
      ensures LinkedBelow(fields, j + 1)
    {
      LinkingStart(fields, j);
      var f := fields;
      var o := 0;
      while o < j
        modifies {}
        invariant 0 <= o <= j
        invariant Linking(f, j, o)
      {
        ghost var before := f;
        if Adjacent(j, o) {
          var link := FieldLink(j, o);
          f := AddLinkTo(f, j, link);
          f := AddLinkTo(f, o, link);
        }
        LinkingStep(before, j, o);
        o := o + 1;
      }
      LinkingDone(f, j);
      fields := f;
    }

    /** A transfer object of the board: one field entry per field, in id order, and the
        links of all fields as a set, so that a link held by two fields is listed once;
        the order of the link list is the set's and is not modelled. */
    method AsDTO() returns (dto: BoardDataDTO)
      requires Valid()
      ensures |dto.fields| == FieldCount
      ensures forall k :: 0 <= k < FieldCount ==> dto.fields[k] == fields[k].AsDTO()
      ensures NoRepeats(dto.links)
      ensures forall d :: d in dto.links <==> d in AllLinkDTOs(fields)
      ensures Describes(fields, dto)
    {
      var fieldDtos := [];
      var k := 0;
      while k < FieldCount
        invariant 0 <= k <= FieldCount
        invariant |fieldDtos| == k
        invariant forall m :: 0 <= m < k ==> fieldDtos[m] == fields[m].AsDTO()
      {
        fieldDtos := fieldDtos + [fields[k].AsDTO()];
        k := k + 1;
      }
      var linkSet := AllLinkDTOs(fields);
      var linkDtos := [];
      while linkSet != {}
        invariant NoRepeats(linkDtos)
        invariant forall d :: d in AllLinkDTOs(fields) <==> d in linkDtos || d in linkSet
        invariant forall d :: d in linkDtos ==> d !in linkSet
        decreases linkSet
      {
        var d :| d in linkSet;
        linkDtos := linkDtos + [d];
        linkSet := linkSet - {d};
      }
      dto := BoardDataDTO(fieldDtos, linkDtos);
    }

    /** The location of a field, or `None` (Java's null) for an unknown id. */
    function GetLocationOfField(fieldId: int): (loc: Option<Location>)
      reads this
      ensures loc.Some? <==> fieldId in fields
      ensures loc.Some? ==> loc.value == fields[fieldId].location
    {
      if fieldId in fields then Some(fields[fieldId].location) else None
    }
  }

  /** `addLink` on the field `k`: the link is appended to its links. */
  function AddLinkTo(fields: map<int, FieldData>, k: int, link: FieldLink): (f: map<int, FieldData>)
    requires k in fields
    ensures f.Keys == fields.Keys
    ensures f[k] == fields[k].(links := fields[k].links + [link])
    ensures forall m :: m in fields && m != k ==> f[m] == fields[m]
  {
    fields[k := fields[k].(links := fields[k].links + [link])]
  }

  /** While the field `j` is being linked: it holds its links below `o`, the lower
      fields before `o` already hold their link from `j`. */
  ghost predicate Linking(fields: map<int, FieldData>, j: int, o: int)
  {
    && (forall k :: k in fields <==> 0 <= k < FieldCount)
    && j in fields && fields[j] == FieldData(j, GridLocation(j), LinksBelow(j, o))
    && (forall k :: k in fields && k != j ==>
          fields[k] == FieldData(k, GridLocation(k), if k < o then LinksAfter(k, j + 1) else LinksAfter(k, j)))
  }

  /** Once every field is linked to its lower neighbours, the board is complete. */
  lemma LinkedBelowAllIsGrid(fields: map<int, FieldData>)
    requires LinkedBelow(fields, FieldCount)
    ensures IsGrid(fields)
  {
    forall k | k in fields
      ensures fields[k] == FieldData(k, GridLocation(k), GridLinks(k))
    {
      assert fields[k] == FieldData(k, GridLocation(k), LinksAfter(k, FieldCount));
    }
  }

  lemma LinkingStep(fields: map<int, FieldData>, j: int, o: int)
    requires 0 <= o < j < FieldCount && Linking(fields, j, o)
    ensures var link := FieldLink(j, o);
      Linking(if Adjacent(j, o) then AddLinkTo(AddLinkTo(fields, j, link), o, link) else fields, j, o + 1)
  {
    var link := FieldLink(j, o);
    LinksAfterStep(o, j);
    if Adjacent(j, o) {
      LinkingStepAdjacent(fields, AddLinkTo(AddLinkTo(fields, j, link), o, link), j, o);
    } else {
      assert LinksBelow(j, o + 1) == LinksBelow(j, o) + [];
      assert LinksAfter(o, j + 1) == LinksAfter(o, j) + [];
      forall k | k in fields && k != j
        ensures fields[k] == FieldData(k, GridLocation(k), if k < o + 1 then LinksAfter(k, j + 1) else LinksAfter(k, j))
      {
      }
    }
  }

  /** The step of `LinkingStep` that appends the link between the neighbours `j` and `o`
      to both. */
  lemma LinkingStepAdjacent(fields: map<int, FieldData>, f': map<int, FieldData>, j: int, o: int)
    requires 0 <= o < j < FieldCount && Linking(fields, j, o) && Adjacent(j, o)
    requires LinksAfter(o, j + 1) == LinksAfter(o, j) + [FieldLink(j, o)]
    requires f' == AddLinkTo(AddLinkTo(fields, j, FieldLink(j, o)), o, FieldLink(j, o))
    ensures Linking(f', j, o + 1)
  {
    forall k | k in f' && k != j
      ensures f'[k] == FieldData(k, GridLocation(k), if k < o + 1 then LinksAfter(k, j + 1) else LinksAfter(k, j))
    {
      if k != o {
        assert f'[k] == fields[k];
      }
    }
  }

  lemma LinkingStart(fields: map<int, FieldData>, j: int)
    requires 0 <= j < FieldCount && LinkedBelow(fields, j)
    ensures Linking(fields, j, 0)
  {
    forall k | k in fields && k != j
      ensures fields[k] == FieldData(k, GridLocation(k), if k < 0 then LinksAfter(k, j + 1) else LinksAfter(k, j))
    {
    }
  }

  lemma LinkingDone(fields: map<int, FieldData>, j: int)
    requires 0 <= j < FieldCount && Linking(fields, j, j)
    ensures LinkedBelow(fields, j + 1)
  {
    forall k | k in fields
      ensures fields[k] == FieldData(k, GridLocation(k), LinksAfter(k, j + 1))
    {
      if k == j {
        assert LinksAfter(j, j + 1) == LinksBelow(j, j) + [];
      }
    }
  }

  /** One more row of links: a field below `j` gains the link from `j` when they are
      neighbours, the field `j` gets its links to lower neighbours, and higher fields
      have none yet. */
  lemma LinksAfterStep(k: int, j: int)
    requires 0 <= k < j
    ensures LinksAfter(k, j + 1) == LinksAfter(k, j) + (if Adjacent(j, k) then [FieldLink(j, k)] else [])
  {
  }

  /** A location lookup on the initialised board finds exactly the ids
      `0..FieldCount-1`, at their grid locations. */
  lemma GridLocationLookup(b: BoardData, fieldId: int)
    requires b.Valid()
    ensures b.GetLocationOfField(fieldId).Some? <==> 0 <= fieldId < FieldCount
    ensures b.GetLocationOfField(fieldId).Some? ==> b.GetLocationOfField(fieldId).value == GridLocation(fieldId)
  {
  }
}
