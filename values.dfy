/** The objects that travel between the virtual host's components: transfer objects,
    fetch commands, message contents and the `Object` payloads of the broker
    (virtualhost generic/FetchCommand.java, generic/fetchparms/PathfindingConfig.java,
    outwardapi/dtos/FieldLinkDTO.java, outwardapi/dtos/BoardDataDTO.java). */
module Values {
  import opened Common

  /** A field of the board as sent to clients; the location is a `real` triple. */
  datatype FieldDataDTO = FieldDataDTO(id: int, location: Location)
  {
    /** `FieldDataDTO.equals`: same id and same coordinates. */
    function Equals(obj: Value): bool
    {
      obj.FieldDto? && id == obj.field.id && location == obj.field.location
    }
  }

  /** A directed pair of field ids. */
  datatype FieldLinkDTO = FieldLinkDTO(idFieldA: int, idFieldB: int)
  {
    /** `FieldLinkDTO.equals`: false against null or another class, then the ids
        compared in order. */
    function Equals(obj: Value): bool
    {
      if obj.Null? || !obj.LinkDto? then false
      else if idFieldA != obj.link.idFieldA then false
      else if idFieldB != obj.link.idFieldB then false
      else true
    }

    /** `FieldLinkDTO.hashCode` in 32-bit arithmetic. */
    function HashCode(): int
    {
      Wrap32(17 * Wrap32(17 * 7 + idFieldA) + idFieldB)
    }
  }

  /** The whole board: the lists are copies of the collections given to the constructor,
      in their iteration order, and can never change afterwards. */
  datatype BoardDataDTO = BoardDataDTO(fields: seq<FieldDataDTO>, links: seq<FieldLinkDTO>)
  {
    /** `BoardDataDTO.equals`: the same object, or another board whose two lists are
        equal element by element and in order. */
    function Equals(obj: Value): bool
    {
      if obj == BoardDto(this) then true
      else if obj.Null? || !obj.BoardDto? then false
      else FieldListEquals(fields, obj.board.fields) && LinkListEquals(links, obj.board.links)
    }
  }

  /** `List.equals` over field DTOs: equal sizes and pairwise `equals`. */
  function FieldListEquals(a: seq<FieldDataDTO>, b: seq<FieldDataDTO>): bool
  {
    if |a| == 0 || |b| == 0 then |a| == |b|
    else a[0].Equals(FieldDto(b[0])) && FieldListEquals(a[1..], b[1..])
  }

  /** `List.equals` over link DTOs: equal sizes and pairwise `equals`. */
  function LinkListEquals(a: seq<FieldLinkDTO>, b: seq<FieldLinkDTO>): bool
  {
    if |a| == 0 || |b| == 0 then |a| == |b|
    else a[0].Equals(LinkDto(b[0])) && LinkListEquals(a[1..], b[1..])
  }

  /** The parameters of a pathfinding request. */
  datatype PathfindingConfig = PathfindingConfig(fromField: int, toField: int)
  {
    /** `PathfindingConfig.equals`: false against null or another class, else both ids. */
    function Equals(obj: Value): bool
    {
      if obj.Null? || !obj.PathCfg? then false
      else fromField == obj.cfg.fromField && toField == obj.cfg.toField
    }

    /** `PathfindingConfig.hashCode` in 32-bit arithmetic. */
    function HashCode(): int
    {
      Wrap32(89 * Wrap32(89 * 7 + fromField) + toField)
    }
  }

  /** A request sent through the broker: a command code and an optional parameter
      object (`Null` when absent). */
  datatype FetchCommand = FetchCommand(command: string, parms: Value)
  {
    /** `FetchCommand.equals`: false against null or another class; true for the same
        object; otherwise equal command strings and parameters that are both null or
        equal by the parameter's own `equals`. */
    function Equals(obj: Value): bool
      decreases this, 1
    {
      if obj.Null? || !obj.Fetch? then false
      else if obj.fetch == this then true
      else
        var other := obj.fetch;
        var parmsEqual := (parms != Null && other.parms != Null && JavaEquals(parms, other.parms))
          || (parms == Null && other.parms == Null);
        command == other.command && parmsEqual
    }

    /** `FetchCommand.hashCode` in 32-bit arithmetic, where the parameter's hash is
        part of the model. */
    function HashCode(): Option<int>
    {
      match JavaHash(parms)
      case None => None
      case Some(ph) => Some(Wrap32(43 * Wrap32(43 * 5 + StringHash(command)) + ph))
    }
  }

  /** `new FetchCommand(command)`: a command without parameters. */
  function FetchWithoutParms(command: string): (f: FetchCommand)
    ensures f.command == command && f.parms == Null
    ensures f.Equals(Fetch(FetchCommand(command, Null)))
  {
    FetchCommand(command, Null)
  }

  /** A figurine as listed to clients; its colours are not modelled. */
  datatype FigurineDTO = FigurineDTO(id: string, location: Location, fieldId: int)

  /** Every object the modelled code passes around as `Object`. `Other` stands for an
      instance of any further class, told apart by an identity number. */
  datatype Value =
    | Null
    | IntVal(i: int)
    | StrVal(s: string)
    | LocVal(loc: Location)
    | FieldDto(field: FieldDataDTO)
    | LinkDto(link: FieldLinkDTO)
    | BoardDto(board: BoardDataDTO)
    | PathCfg(cfg: PathfindingConfig)
    | Fetch(fetch: FetchCommand)
      /** `FindPathForFigurineParms`: a figurine should walk to a field. */
    | FindPathParms(figurineId: string, goalField: int)
      /** `McFindPathForFigurine`: find a path for a figurine between two fields. */
    | FindPathRequest(requester: string, fromFieldId: int, toFieldId: int)
      /** `McPathForFigurine`: a path found for a figurine; the list may be null. */
    | PathFound(pathOwner: string, waypoints: Option<seq<Location>>)
      /** `FigurinesListDTO`. */
    | FigurineList(dtos: seq<FigurineDTO>)
      /** A `Pathfinder`, the `Callable` that searches a path between two fields. */
    | PathfinderTask(taskFrom: int, taskTo: int)
    | Other(className: string, identity: nat)

  /** A broker message: a headline and a content object. */
  datatype Message = Message(headline: string, content: Value)

  /** `getClass().getSimpleName()` of a non-null object. */
  function SimpleName(v: Value): string
    requires v != Null
  {
    match v
    case IntVal(_) => "Integer"
    case StrVal(_) => "String"
    case LocVal(_) => "Vector3f"
    case FieldDto(_) => "FieldDataDTO"
    case LinkDto(_) => "FieldLinkDTO"
    case BoardDto(_) => "BoardDataDTO"
    case PathCfg(_) => "PathfindingConfig"
    case Fetch(_) => "FetchCommand"
    case FindPathParms(_, _) => "FindPathForFigurineParms"
    case FindPathRequest(_, _, _) => "McFindPathForFigurine"
    case PathFound(_, _) => "McPathForFigurine"
    case FigurineList(_) => "FigurinesListDTO"
    case PathfinderTask(_, _) => "Pathfinder"
    case Other(name, _) => name
  }

  /** The simple class name, or "null" for null, as the error messages print it. */
  function NameOrNull(v: Value): string
  {
    if v == Null then "null" else SimpleName(v)
  }

  /** `a.equals(b)` for a non-null `a`. The classes of the model use their own
      `equals`; boxed numbers, strings and vectors compare by value; instances of
      other classes by identity. */
  function JavaEquals(a: Value, b: Value): bool
    requires a != Null
    decreases a, 0
  {
    match a
    case FieldDto(f) => f.Equals(b)
    case LinkDto(l) => l.Equals(b)
    case BoardDto(d) => d.Equals(b)
    case PathCfg(c) => c.Equals(b)
    case Fetch(f) => f.Equals(b)
    case _ => a == b
  }

  /** The UTF-16 code units of a character: itself below U+10000, otherwise its high
      and low surrogate. */
  function Utf16(c: char): (units: seq<int>)
    ensures 1 <= |units| <= 2
    ensures forall i :: 0 <= i < |units| ==> 0 <= units[i] < 0x1_0000
    ensures |units| == 1 <==> (c as int) < 0x1_0000
    ensures |units| == 1 ==> units[0] == c as int
    ensures |units| == 2 ==> 0x1_0000 + (units[0] - 0xD800) * 0x400 + (units[1] - 0xDC00) == c as int
  {
    var n := c as int;
    if n < 0x1_0000 then [n]
    else [0xD800 + (n - 0x1_0000) / 0x400, 0xDC00 + (n - 0x1_0000) % 0x400]
  }

  /** `31 * h + u` over code units, in 32-bit arithmetic. */
  function HashUnits(h: int, units: seq<int>): (r: int)
    ensures IsInt32(h) ==> IsInt32(r)
    decreases units
  {
    if units == [] then h else HashUnits(Wrap32(31 * h + units[0]), units[1..])
  }

  /** Java's `String.hashCode`: `31 * h + u` over the UTF-16 code units of the string,
      in 32-bit arithmetic. */
  function StringHash(s: string): (h: int)
    ensures IsInt32(h)
  {
    if s == [] then 0 else HashUnits(StringHash(s[..|s| - 1]), Utf16(s[|s| - 1]))
  }

  /** `Objects.hashCode(v)` where the class's `hashCode` is part of the model; `None`
      for classes whose hash (float bits, identity hashes) is not modelled. */
  function JavaHash(v: Value): Option<int>
  {
    match v
    case Null => Some(0)
    case IntVal(i) => Some(Wrap32(i))
    case StrVal(s) => Some(StringHash(s))
    case LinkDto(l) => Some(l.HashCode())
    case PathCfg(c) => Some(c.HashCode())
    case Fetch(f) => f.HashCode()
    case _ => None
  }

  // ---------------------------------------------------------------- properties

  /** Two field lists are `equals` exactly when they are the same sequence. */
  lemma {:induction false} FieldListEqualsIsEquality(a: seq<FieldDataDTO>, b: seq<FieldDataDTO>)
    ensures FieldListEquals(a, b) <==> a == b
  {
    if |a| != 0 && |b| != 0 {
      FieldListEqualsIsEquality(a[1..], b[1..]);
      assert a == [a[0]] + a[1..] && b == [b[0]] + b[1..];
    }
  }

  /** Two link lists are `equals` exactly when they are the same sequence. */
  lemma {:induction false} LinkListEqualsIsEquality(a: seq<FieldLinkDTO>, b: seq<FieldLinkDTO>)
    ensures LinkListEquals(a, b) <==> a == b
  {
    if |a| != 0 && |b| != 0 {
      LinkListEqualsIsEquality(a[1..], b[1..]);
      assert a == [a[0]] + a[1..] && b == [b[0]] + b[1..];
    }
  }

  /** Java equality on the modelled classes is value equality: `equals` is reflexive,
      never holds against null or another class, and holds exactly for equal values. */
  lemma {:induction false} JavaEqualsIsValueEquality(a: Value, b: Value)
    requires a != Null
    ensures JavaEquals(a, b) <==> a == b
    decreases a
  {
    match a
    case BoardDto(d) =>
      if b.BoardDto? {
        FieldListEqualsIsEquality(d.fields, b.board.fields);
        LinkListEqualsIsEquality(d.links, b.board.links);
      }
    case Fetch(f) =>
      if b.Fetch? && f.parms != Null {
        JavaEqualsIsValueEquality(f.parms, b.fetch.parms);
      }
    case _ =>
  }

  /** Among the modelled classes, only a board is called `BoardDataDTO`. */
  lemma {:induction false} OnlyBoardsAreNamedBoardDataDTO(v: Value)
    requires v != Null && !v.Other?
    ensures SimpleName(v) == "BoardDataDTO" <==> v.BoardDto?
  {
    if !v.BoardDto? {
      assert SimpleName(v)[0] != 'B' by {
        match v
        case IntVal(_) =>
        case StrVal(_) =>
        case LocVal(_) =>
        case FieldDto(_) =>
        case LinkDto(_) =>
        case PathCfg(_) =>
        case Fetch(_) =>
        case FindPathParms(_, _) =>
        case FindPathRequest(_, _, _) =>
        case PathFound(_, _) =>
        case FigurineList(_) =>
        case PathfinderTask(_, _) =>
      }
    }
  }

  /** Two link DTOs are equal exactly when both ids match in order, so a link and its
      reverse differ unless both ends are the same field. */
  lemma LinkEqualityIsOrdered(l: FieldLinkDTO, m: FieldLinkDTO)
    ensures l.Equals(LinkDto(m)) <==> l.idFieldA == m.idFieldA && l.idFieldB == m.idFieldB
    ensures l.Equals(LinkDto(FieldLinkDTO(l.idFieldB, l.idFieldA))) <==> l.idFieldA == l.idFieldB
    ensures !l.Equals(Null)
  {
  }

  /** Equal link DTOs have equal hashes. */
  lemma EqualLinksHashEqually(l: FieldLinkDTO, m: FieldLinkDTO)
    requires l.Equals(LinkDto(m))
    ensures l.HashCode() == m.HashCode()
  {
  }

  /** Two configurations are equal exactly when start and goal match; equal ones hash
      equally; null and other classes are never equal. */
  lemma ConfigEquality(c: PathfindingConfig, obj: Value)
    ensures c.Equals(obj) <==> obj == PathCfg(c)
    ensures c.Equals(obj) ==> c.HashCode() == obj.cfg.HashCode()
    ensures !c.Equals(Null)
  {
  }

  /** Two fetch commands are equal exactly when their command strings are equal and
      their parameters are both null or equal; equality is reflexive and never holds
      against null or another class; equal commands hash equally. */
  lemma {:induction false} FetchCommandEquality(f: FetchCommand, obj: Value)
    ensures f.Equals(obj) <==> (
      && obj.Fetch?
      && f.command == obj.fetch.command
      && ((f.parms == Null && obj.fetch.parms == Null)
          || (f.parms != Null && obj.fetch.parms != Null && JavaEquals(f.parms, obj.fetch.parms))))
    ensures f.Equals(obj) <==> obj == Fetch(f)
    ensures f.Equals(obj) ==> f.HashCode() == obj.fetch.HashCode()
  {
    JavaEqualsIsValueEquality(Fetch(f), obj);
    if f.parms != Null && obj.Fetch? {
      JavaEqualsIsValueEquality(f.parms, obj.fetch.parms);
    }
  }

  /** Board DTO equality is order-sensitive equality of both lists: the same elements in
      another order make a different board. It is reflexive and never holds against
      null or another class. */
  lemma {:induction false} BoardDataEquality(d: BoardDataDTO, obj: Value)
    ensures d.Equals(obj) <==> obj == BoardDto(d)
    ensures d.Equals(BoardDto(d)) && !d.Equals(Null)
  {
    JavaEqualsIsValueEquality(BoardDto(d), obj);
  }
}
