/**
  The request handlers of the picture service over its in-memory list of
  records: health, count, list all, lookup by id, create, and the two stub
  handlers update and delete.
 */
module Routes {
  import opened Pictures

  const HealthStatus := "OK"
  const ServerErrorMessage := "Internal server error"
  const MissingJsonMessage := "Missing JSON in request"
  const InvalidDataMessage := "Invalid picture data"
  const AddedMessage := "Picture added successfully"

  /** The 404 message of a lookup: "Picture with id {id} not found". */
  function NotFoundMessage(id: nat): (m: string)
    ensures |m| > |"Picture with id  not found"|
    ensures m[..16] == "Picture with id " && m[|m| - 10..] == " not found"
    ensures DigitsValue(m[16..|m| - 10]) == id
    ensures forall k :: 16 <= k < |m| - 10 ==> '0' <= m[k] <= '9'
    ensures id > 0 ==> m[16] != '0'
    ensures m[16] == '0' ==> |m| == 27
  {
    DecimalValue(id);
    var m := "Picture with id " + Decimal(id) + " not found";
    assert m[16..|m| - 10] == Decimal(id);
    m
  }

  /** The health handler's reply; it does not depend on the store. */
  function Health(): (r: Outcome)
    ensures r.Returned? && r.response.code == 200
    ensures r.response.payload == Status("OK")
  {
    Returned(Response(200, Status(HealthStatus)))
  }

  // ---------------------------------------------------------------------
  // Lookup by id
  // ---------------------------------------------------------------------

  /** Where the lookup scan stops: at a match, at an id whose conversion raises an uncaught exception, or at the end. */
  datatype Scan = Hit(at: nat) | Miss | Fail(at: nat)

  /**
    The scan steps past a record with this id when searching for `id`: the id
    converts to a different integer, or its conversion raises an exception
    that the scan catches.
   */
  predicate SkippedBy(f: IdField, id: int)
    ensures SkippedBy(f, id) <==>
      f != IntId(id) && f != Unconvertible(TypeError) && f != Unconvertible(OverflowError)
  {
    if f.IntId? then f.n != id else Caught(IntError(f))
  }

  /** The in-order scan of the lookup handler over `s`. */
  function FindById(s: seq<Picture>, id: int): (r: Scan)
    ensures r.Hit? ==> r.at < |s| && s[r.at].id == IntId(id)
    ensures r.Fail? ==> r.at < |s| && !s[r.at].id.IntId? && !Caught(IntError(s[r.at].id))
    ensures !r.Miss? ==> forall j :: 0 <= j < r.at ==> SkippedBy(s[j].id, id)
    ensures r.Miss? <==> forall j :: 0 <= j < |s| ==> SkippedBy(s[j].id, id)
    decreases |s|
  {
    if |s| == 0 then Miss
    else if s[0].id == IntId(id) then Hit(0)
    else if !SkippedBy(s[0].id, id) then Fail(0)
    else
      match FindById(s[1..], id)
      case Hit(k) => Hit(k + 1)
      case Miss => Miss
      case Fail(k) => Fail(k + 1)
  }

  /** What the lookup handler produces for `id` on the list `s`. */
  function LookupOutcome(s: seq<Picture>, id: nat): (r: Outcome)
    ensures !r.ReturnedNone?
    ensures r.Returned? ==> r.response.code == 200 || r.response.code == 404
    ensures r.Returned? && r.response.code == 200 ==>
      exists i :: 0 <= i < |s| && s[i].id == IntId(id) && r.response.payload == One(s[i]) &&
        forall j :: 0 <= j < i ==> SkippedBy(s[j].id, id)
    ensures (r.Returned? && r.response.code == 404) <==> forall j :: 0 <= j < |s| ==> SkippedBy(s[j].id, id)
    ensures r.Returned? && r.response.code == 404 ==> r.response.payload == Message(NotFoundMessage(id))
    ensures r.Raised? ==> !Caught(r.error)
    ensures r.Raised? && !Caught(r.error) ==>
      exists i :: 0 <= i < |s| && s[i].id == Unconvertible(r.error) &&
        forall j :: 0 <= j < i ==> SkippedBy(s[j].id, id)
  {
    match FindById(s, id)
    case Hit(i) => Returned(Response(200, One(s[i])))
    case Miss => Returned(Response(404, Message(NotFoundMessage(id))))
    case Fail(i) => Raised(IntError(s[i].id))
  }

  // ---------------------------------------------------------------------
  // Create
  // ---------------------------------------------------------------------

  /**
    `max(int(picture["id"]) for picture in s)`: the largest integer id, or the
    exception raised by the first record whose id does not convert.
   */
  function MaxId(s: seq<Picture>): (r: Result<int>)
    requires |s| > 0
    ensures r.Ok? <==> AllIntIds(s)
    ensures r.Ok? ==> forall i :: 0 <= i < |s| ==> s[i].id.IntId? && s[i].id.n <= r.value
    ensures r.Ok? ==> exists i :: 0 <= i < |s| && s[i].id == IntId(r.value)
    ensures r.Err? ==> exists i :: FirstBadId(s, i) && r.error == IntError(s[i].id)
    decreases |s|
  {
    var head := s[0].id;
    if !head.IntId? then Err(IntError(head))
    else if |s| == 1 then Ok(head.n)
    else
      match MaxId(s[1..])
      case Err(e) => Err(e)
      case Ok(m) => Ok(if head.n >= m then head.n else m)
  }

  /** The id a created record receives: 1 on an empty list, otherwise the largest id plus one. */
  function NextId(s: seq<Picture>): (r: Result<int>)
    ensures r.Ok? <==> AllIntIds(s)
    ensures |s| == 0 ==> r == Ok(1)
    ensures r.Ok? ==> forall i :: 0 <= i < |s| ==> s[i].id.IntId? && s[i].id.n < r.value
    ensures r.Ok? && |s| > 0 ==> exists i :: 0 <= i < |s| && s[i].id == IntId(r.value - 1)
    ensures r.Err? ==> exists i :: FirstBadId(s, i) && r.error == IntError(s[i].id)
  {
    if |s| == 0 then Ok(1)
    else
      match MaxId(s)
      case Err(e) => Err(e)
      case Ok(m) => Ok(m + 1)
  }

  /** A create request that adds a record to the list `s`. */
  predicate CreateSucceeds(s: seq<Picture>, req: Request) {
    req.Json? && req.body.Object? && Truthy(req.body) && AllIntIds(s)
  }

  /** A handler's outcome together with the list it leaves behind. */
  datatype Step = Step(outcome: Outcome, after: seq<Picture>)

  /** What the create handler produces on the list `s`, and the list afterwards. */
  function Create(s: seq<Picture>, req: Request): (st: Step)
    ensures req.NotJson? ==> st == Step(Returned(Response(400, Message("Missing JSON in request"))), s)
    ensures req.Json? && !Truthy(req.body) ==> st == Step(Returned(Response(400, Message("Invalid picture data"))), s)
    ensures req.Json? && Truthy(req.body) && !AllIntIds(s) ==>
      st.after == s && exists i :: FirstBadId(s, i) && st.outcome == Raised(IntError(s[i].id))
    ensures req.Json? && req.body.NonObject? && Truthy(req.body) && AllIntIds(s) ==> st == Step(Raised(TypeError), s)
    ensures (st.outcome.Returned? && st.outcome.response.code == 201) <==> CreateSucceeds(s, req)
    ensures !CreateSucceeds(s, req) ==> st.after == s
    ensures CreateSucceeds(s, req) ==>
      |st.after| == |s| + 1 && st.after[..|s|] == s &&
      st.outcome.response.payload == Added("Picture added successfully", st.after[|s|]) &&
      st.after[|s|].fields == req.body.picture.fields &&
      st.after[|s|].id.IntId? &&
      (forall i :: 0 <= i < |s| ==> s[i].id.IntId? && s[i].id.n < st.after[|s|].id.n) &&
      (|s| == 0 ==> st.after[|s|].id == IntId(1)) &&
      (|s| > 0 ==> exists i :: 0 <= i < |s| && s[i].id == IntId(st.after[|s|].id.n - 1))
  {
    match req
    case NotJson => Step(Returned(Response(400, Message(MissingJsonMessage))), s)
    case Json(body) =>
      if !Truthy(body) then Step(Returned(Response(400, Message(InvalidDataMessage))), s)
      else
        match NextId(s)
        case Err(e) => Step(Raised(e), s)
        case Ok(n) =>
          match body
          case NonObject(_) => Step(Raised(TypeError), s)
          case Object(p) =>
            var created := p.(id := IntId(n));
            Step(Returned(Response(201, Added(AddedMessage, created))), s + [created])
  }

  // ---------------------------------------------------------------------
  // The store
  // ---------------------------------------------------------------------

  /** The service's list of picture records, loaded once and appended to by create. */
  class PictureStore {
    var data: seq<Picture>

    /** The list as loaded at startup. */
    constructor (initial: seq<Picture>)
      ensures data == initial
    {
      data := initial;
    }

    /** The count handler: the number of records, or a server error when the list is empty. */
    function Count(): (r: Outcome)
      reads this
      ensures r.Returned?
      ensures r.response.code == 200 <==> |data| > 0
      ensures r.response.code == 200 ==> r.response.payload == Length(|data|)
      ensures r.response.code != 200 ==> r.response == Response(500, Message("Internal server error"))
    {
      if |data| > 0 then Returned(Response(200, Length(|data|)))
      else Returned(Response(500, Message(ServerErrorMessage)))
    }

    /** The list-all handler: every record in order, an empty array for an empty list. */
    function GetPictures(): (r: Outcome)
      reads this
      ensures r.Returned? && r.response.code == 200
      ensures r.response.payload.Pictures? && r.response.payload.items == data
    {
      if |data| > 0 then Returned(Response(200, Pictures(data)))
      else Returned(Response(200, Pictures([])))
    }

    /** The lookup handler: scans the list in order for the first record with the requested id. */
    method GetPictureById(id: nat) returns (r: Outcome)
      ensures r == LookupOutcome(data, id)
    {
      if |data| > 0 {
        var i := 0;
        while i < |data|
          invariant 0 <= i <= |data|
          invariant forall j :: 0 <= j < i ==> SkippedBy(data[j].id, id)
        {
          var picture := data[i];
          match picture.id {
            case IntId(n) =>
              if n == id {
                return Returned(Response(200, One(picture)));
              }
            case Missing =>
            case Unconvertible(e) =>
              if !Caught(e) {
                return Raised(e);
              }
          }
          i := i + 1;
        }
      }
      r := Returned(Response(404, Message(NotFoundMessage(id))));
    }

    /**
      The create handler: validates the request, overwrites the body's id with
      the next id and appends the record to the list.
     */
    method CreatePicture(req: Request) returns (r: Outcome)
      modifies this
      ensures Step(r, data) == Create(old(data), req)
    {
      if !req.Json? {
        return Returned(Response(400, Message(MissingJsonMessage)));
      }
      var newPicture := req.body;
      if !Truthy(newPicture) {
        return Returned(Response(400, Message(InvalidDataMessage)));
      }
      var newId: int;
      if |data| == 0 {
        newId := 1;
      } else {
        var max := MaxId(data);
        if max.Err? {
          return Raised(max.error);
        }
        newId := max.value + 1;
      }
      if !newPicture.Object? {
        return Raised(TypeError);
      }
      var created := newPicture.picture.(id := IntId(newId));
      data := data + [created];
      r := Returned(Response(201, Added(AddedMessage, created)));
    }

    /** The update handler is a stub: it returns None and leaves the list alone. */
    function UpdatePicture(id: nat): (r: Outcome)
      ensures r == ReturnedNone
    {
      ReturnedNone
    }

    /** The delete handler is a stub: it returns None and leaves the list alone. */
    function DeletePicture(id: nat): (r: Outcome)
      ensures r == ReturnedNone
    {
      ReturnedNone
    }
  }
}
