/** The client's copy of the board (client ingame/board/BoardData.java and FieldData.java):
    one field object per field DTO, each holding the links that touch it. */
module ClientBoard {
  import opened Common
  import opened Values
  import ClientErrorCodes

  /** A link between two field objects; which field is A and which is B follows the DTO. */
  datatype Link = Link(fieldA: FieldData, fieldB: FieldData)

  /** The pair of field ids a link stands for. */
  function LinkIds(link: Link): FieldLinkDTO
  {
    FieldLinkDTO(link.fieldA.id, link.fieldB.id)
  }

  function AllLinkIds(links: seq<Link>): (r: seq<FieldLinkDTO>)
    ensures |r| == |links|
    ensures forall k :: 0 <= k < |links| ==> r[k] == LinkIds(links[k])
  {
    if links == [] then [] else AllLinkIds(links[..|links| - 1]) + [LinkIds(links[|links| - 1])]
  }

  const ForeignLinkMsg: string := "Can add only links to a field that actually link the field, but got a link for two other fields."

  /** The IllegalArgumentException of `addLink` for a link between two other fields. */
  function ForeignLinkFailure(): (f: Failure)
    ensures f.kind == IllegalArgument
    ensures Contains(f.message, ForeignLinkMsg) && Contains(f.message, ClientErrorCodes.C17679)
  {
    ClientErrorCodes.AssembledMessageCarriesMsgAndCode(Some(ForeignLinkMsg), Some(ClientErrorCodes.C17679));
    Failure(IllegalArgument, ClientErrorCodes.AssembleCodedMsg(Some(ForeignLinkMsg), Some(ClientErrorCodes.C17679)))
  }

  /** A field of the board: its id, the location of its centre and its links. */
  class FieldData {
    const id: int
    const location: Location
    var links: seq<Link>

    /** Every link the field holds has the field at one of its ends. */
    ghost predicate Valid()
      reads this
    {
      forall k :: 0 <= k < |links| ==> links[k].fieldA == this || links[k].fieldB == this
    }

    constructor(id: int, location: Location)
      ensures this.id == id && this.location == location && links == []
      ensures Valid()
    {
      this.id := id;
      this.location := location;
      links := [];
    }

    /** `addLink`: a link that has this field at one end is appended; any other link is
        refused and the links stay as they were. */
    method AddLink(link: Link) returns (outcome: Outcome)
      requires Valid()
      modifies this
      ensures Valid()
      ensures outcome.Pass? <==> (link.fieldA == this || link.fieldB == this)
      ensures outcome.Pass? ==> links == old(links) + [link]
      ensures outcome.Fail? ==> links == old(links) && outcome.failure == ForeignLinkFailure()
    {
      if this != link.fieldA && this != link.fieldB {
        return Fail(ForeignLinkFailure());
      }
      links := links + [link];
      return Pass;
    }
  }

  /** Where the field with `fieldId` lies after the field DTOs were put into a map one by
      one: a later DTO with the same id replaces an earlier one. */
  function LocationIn(dtos: seq<FieldDataDTO>, fieldId: int): (r: Option<Location>)
    ensures r.Some? <==> exists k :: 0 <= k < |dtos| && dtos[k].id == fieldId
  {
    if dtos == [] then None
    else if dtos[|dtos| - 1].id == fieldId then Some(dtos[|dtos| - 1].location)
    else
      var r := LocationIn(dtos[..|dtos| - 1], fieldId);
      assert forall k :: 0 <= k < |dtos| - 1 ==> dtos[..|dtos| - 1][k] == dtos[k];
      r
  }

  /** The ids of the field DTOs. */
  function FieldIds(dtos: seq<FieldDataDTO>): (ids: set<int>)
    ensures forall fieldId :: fieldId in ids <==> exists k :: 0 <= k < |dtos| && dtos[k].id == fieldId
  {
    set k | 0 <= k < |dtos| :: dtos[k].id
  }

  /** With distinct ids, each field lies where its own DTO says. */
  lemma {:induction false} UniqueIdsKeepTheirLocation(dtos: seq<FieldDataDTO>, k: int)
    requires 0 <= k < |dtos|
    requires forall i, j :: 0 <= i < j < |dtos| ==> dtos[i].id != dtos[j].id
    ensures LocationIn(dtos, dtos[k].id) == Some(dtos[k].location)
  {
    if k < |dtos| - 1 {
      var front := dtos[..|dtos| - 1];
      assert front[k] == dtos[k];
      UniqueIdsKeepTheirLocation(front, k);
    }
  }

  /** The link DTOs among the first `n` that a field with `fieldId` receives, in order:
      each link that names the field as A, and again each link that names it as B (a
      link from a field to itself is therefore added twice). */
  function LinksOf(dtos: seq<FieldLinkDTO>, n: nat, fieldId: int): (r: seq<FieldLinkDTO>)
    requires n <= |dtos|
    ensures forall l :: l in r ==> l in dtos[..n] && (l.idFieldA == fieldId || l.idFieldB == fieldId)
  {
    if n == 0 then []
    else
      var last := dtos[n - 1];
      var r := LinksOf(dtos, n - 1, fieldId);
      assert forall l :: l in dtos[..n - 1] ==> l in dtos[..n] by {
        assert forall k :: 0 <= k < n - 1 ==> dtos[..n - 1][k] == dtos[..n][k];
      }
      assert dtos[..n][n - 1] == last;
      r + (if last.idFieldA == fieldId then [last] else []) + (if last.idFieldB == fieldId then [last] else [])
  }

  /** Every link between two different fields reaches both of them. */
  lemma {:induction false} LinkReachesBothEnds(dtos: seq<FieldLinkDTO>, n: nat, k: nat)
    requires k < n <= |dtos| && dtos[k].idFieldA != dtos[k].idFieldB
    ensures dtos[k] in LinksOf(dtos, n, dtos[k].idFieldA) && dtos[k] in LinksOf(dtos, n, dtos[k].idFieldB)
  {
    if k < n - 1 {
      LinkReachesBothEnds(dtos, n - 1, k);
    }
  }

  /** A link DTO with an end that is no field of the board. */
  predicate Dangling(fieldIds: set<int>, l: FieldLinkDTO)
  {
    l.idFieldA !in fieldIds || l.idFieldB !in fieldIds
  }

  /** Each field sits in the map under its own id. */
  predicate IdsMatch(fields: map<int, FieldData>)
  {
    forall fieldId :: fieldId in fields ==> fields[fieldId].id == fieldId
  }

  ghost predicate AllValid(fields: map<int, FieldData>)
    reads fields.Values
  {
    forall fieldId :: fieldId in fields ==> fields[fieldId].Valid()
  }

  /** Each field holds the links of `done` that touch it, in order. */
  ghost predicate LinksFollow(fields: map<int, FieldData>, links: seq<FieldLinkDTO>, n: nat)
    requires n <= |links|
    reads fields.Values
  {
    forall fieldId :: fieldId in fields ==> AllLinkIds(fields[fieldId].links) == LinksOf(links, n, fieldId)
  }

  /** Each field lies where the field DTOs put it. */
  predicate LocatedBy(fields: map<int, FieldData>, dtos: seq<FieldDataDTO>)
  {
    forall fieldId :: fieldId in fields ==> LocationIn(dtos, fieldId) == Some(fields[fieldId].location)
  }

  /** The client's board: the fields by id. */
  class BoardData {
    var fields: map<int, FieldData>

    ghost predicate Valid()
      reads this, fields.Values
    {
      IdsMatch(fields) && AllValid(fields)
    }

    constructor Of(fields: map<int, FieldData>)
      ensures this.fields == fields
    {
      this.fields := fields;
    }

    /** `new BoardData(dto)`: one field per field DTO (later ids replace earlier ones),
        then each link DTO is added to both of its ends. A link DTO naming an id that no
        field has ends the construction with a NullPointerException; the links added
        before it are lost with the half-built object, so the check is made up front. */
    static method Create(dto: BoardDataDTO) returns (r: Result<BoardData>)
      ensures r.Err? <==> exists l :: l in dto.links && Dangling(FieldIds(dto.fields), l)
      ensures r.Err? ==> r.failure.kind == NullPointer
      ensures r.Ok? ==> fresh(r.value) && r.value.Valid()
      ensures r.Ok? ==> r.value.fields.Keys == FieldIds(dto.fields)
      ensures r.Ok? ==> forall fieldId :: r.value.GetLocationOfField(fieldId) == LocationIn(dto.fields, fieldId)
      ensures r.Ok? ==> LinksFollow(r.value.fields, dto.links, |dto.links|)
    {
      var fields := PutFields(dto.fields);
      if exists l :: l in dto.links && Dangling(fields.Keys, l) {
        return Err(Failure(NullPointer, ""));
      }
      LinkAll(fields, dto.links);
      var board := new BoardData.Of(fields);
      return Ok(board);
    }

    /** `getLocationOfField`: the field's location, or nothing for an id no field has. */
    function GetLocationOfField(fieldId: int): (loc: Option<Location>)
      reads this
      ensures loc.Some? <==> fieldId in fields
      ensures loc.Some? ==> loc.value == fields[fieldId].location
    {
      if fieldId in fields then Some(fields[fieldId].location) else None
    }
  }

  /** The first loop of the constructor: a fresh field per DTO, put into the map by id. */
  method PutFields(dtos: seq<FieldDataDTO>) returns (fields: map<int, FieldData>)
    ensures fields.Keys == FieldIds(dtos)
    ensures forall f :: f in fields.Values ==> fresh(f)
    ensures IdsMatch(fields) && AllValid(fields) && LinksFollow(fields, [], 0) && LocatedBy(fields, dtos)
  {
    fields := map[];
    var i := 0;
    while i < |dtos|
      invariant 0 <= i <= |dtos|
      invariant fields.Keys == FieldIds(dtos[..i])
      invariant forall fieldId :: fieldId in fields ==> fresh(fields[fieldId])
      invariant forall fieldId :: fieldId in fields ==>
        && fields[fieldId].id == fieldId && fields[fieldId].Valid() && fields[fieldId].links == []
        && fields[fieldId].location == LocationIn(dtos[..i], fieldId).value
    {
      var field := new FieldData(dtos[i].id, dtos[i].location);
      assert dtos[..i + 1] == dtos[..i] + [dtos[i]];
      assert dtos[..i + 1][..i] == dtos[..i];
      fields := fields[dtos[i].id := field];
      i := i + 1;
    }
    assert dtos[..i] == dtos;
    forall f | f in fields.Values
      ensures fresh(f)
    {
      var fieldId :| fieldId in fields && fields[fieldId] == f;
    }
  }

  /** The second loop of the constructor: each link is added to both of its ends. */
  method LinkAll(fields: map<int, FieldData>, links: seq<FieldLinkDTO>)
    requires IdsMatch(fields) && AllValid(fields)
    requires forall fieldId :: fieldId in fields ==> fields[fieldId].links == []
    requires forall l :: l in links ==> !Dangling(fields.Keys, l)
    modifies fields.Values
    ensures AllValid(fields) && LinksFollow(fields, links, |links|)
  {
    var i := 0;
    while i < |links|
      invariant 0 <= i <= |links|
      invariant AllValid(fields) && LinksFollow(fields, links, i)
    {
      assert !Dangling(fields.Keys, links[i]);
      AddToEnds(fields, links, i);
      i := i + 1;
    }
  }

  /** One `addLink` call of the constructor, on the field with id `end`. */
  method AddToEnd(fields: map<int, FieldData>, link: Link, end: int)
    requires end in fields && (link.fieldA == fields[end] || link.fieldB == fields[end])
    requires IdsMatch(fields) && AllValid(fields)
    modifies fields[end]
    ensures AllValid(fields)
    ensures forall fieldId :: fieldId in fields ==>
      fields[fieldId].links == old(fields[fieldId].links) + (if fieldId == end then [link] else [])
  {
    var outcome := fields[end].AddLink(link);
    assert outcome.Pass?;
  }

  /** The body of the second loop of the constructor: link `i` is added to its A end,
      then to its B end. */
  method AddToEnds(fields: map<int, FieldData>, links: seq<FieldLinkDTO>, i: nat)
    requires i < |links| && links[i].idFieldA in fields && links[i].idFieldB in fields
    requires IdsMatch(fields) && AllValid(fields) && LinksFollow(fields, links, i)
    modifies fields.Values
    ensures AllValid(fields) && LinksFollow(fields, links, i + 1)
  {
    var l := links[i];
    var link := Link(fields[l.idFieldA], fields[l.idFieldB]);
    assert LinkIds(link) == l;
    ghost var before := map fieldId | fieldId in fields :: fields[fieldId].links;
    AddToEnd(fields, link, l.idFieldA);
    AddToEnd(fields, link, l.idFieldB);
    forall fieldId | fieldId in fields
      ensures AllLinkIds(fields[fieldId].links) == LinksOf(links, i + 1, fieldId)
    {
      var extraA := if l.idFieldA == fieldId then [link] else [];
      var extraB := if l.idFieldB == fieldId then [link] else [];
      assert fields[fieldId].links == before[fieldId] + extraA + extraB;
      AllLinkIdsAppend(before[fieldId], extraA);
      AllLinkIdsAppend(before[fieldId] + extraA, extraB);
    }
  }

  lemma {:induction false} AllLinkIdsAppend(a: seq<Link>, b: seq<Link>)
    ensures AllLinkIds(a + b) == AllLinkIds(a) + AllLinkIds(b)
  {
    var r := AllLinkIds(a + b);
    assert |r| == |AllLinkIds(a) + AllLinkIds(b)|;
    forall k | 0 <= k < |r|
      ensures r[k] == (AllLinkIds(a) + AllLinkIds(b))[k]
    {
      if k < |a| {
        assert (a + b)[k] == a[k];
      } else {
        assert (a + b)[k] == b[k - |a|];
      }
    }
  }
}
