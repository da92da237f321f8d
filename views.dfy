/** The tour and tag endpoints: the tag permission table, serializer selection,
    superuser gating of tag create/delete and tour create, and the listing
    orders. The database tables are sequences of rows held by two store objects. */
module TourViews {
  import opened Wrappers
  import opened Ordering

  /** The user behind a request: the anonymous user, or an account by its key. */
  datatype Requester = Anonymous | Member(userId: nat, isSuperuser: bool)

  /** `request.user.is_superuser`; the anonymous user is never a superuser. */
  predicate IsSuperuser(r: Requester)
  {
    r.Member? && r.isSuperuser
  }

  const ForbiddenStatus: nat := 403
  const UnauthorizedStatus: nat := 401
  const CreatedStatus: nat := 201
  const NoContentStatus: nat := 204
  const BadRequestStatus: nat := 400
  const NotFoundStatus: nat := 404

  /** The rich-text description is kept as an uninterpreted string. */
  datatype Tour = Tour(id: nat, owner: nat, title: string, description: string,
                       timeMinutes: int, link: string, tags: set<nat>)

  /** The fields of a tour a create request can set: the writable fields of the
      serializer the create action gets (see `CreateSetsNoTagsOrTagName`). */
  datatype TourInput = TourInput(title: string, description: string, timeMinutes: int, link: string)

  datatype Tag = Tag(id: nat, name: string)

  datatype Body =
    | Error(message: string)
    | InvalidField(field: string)
    | TagData(tag: Tag)
    | TourData(tour: Tour)
    | UnsavedTourData(input: TourInput)
    | NoContent

  datatype Response = Response(status: nat, body: Body)

  /** The framework's answer when a permission class refuses a request: 401 when
      no credentials were presented, 403 with its standard detail otherwise. */
  function PermissionDenied(requester: Requester): (resp: Response)
    ensures resp.status == ForbiddenStatus <==> requester.Member?
    ensures resp.status == UnauthorizedStatus <==> requester.Anonymous?
  {
    if requester.Anonymous? then
      Response(UnauthorizedStatus, Error("Authentication credentials were not provided."))
    else
      Response(ForbiddenStatus, Error("You do not have permission to perform this action."))
  }

  // ---------------------------------------------------------------- permissions

  /** CreateRetrieveTagPermission.has_permission over the view's action (None
      when the HTTP method maps to no action). */
  function HasPermission(action: Option<string>, requester: Requester): (allowed: bool)
    ensures action == Some("list") || action == Some("retrieve") ==> allowed
    ensures action == Some("create") || action == Some("update") ||
            action == Some("partial_update") || action == Some("destroy") ==>
              (allowed <==> IsSuperuser(requester))
    ensures allowed ==>
              action.Some? && action.value in {"list", "retrieve", "create", "update", "partial_update", "destroy"}
  {
    if action.Some? && action.value in ["list", "retrieve"] then true
    else if action.Some? && action.value in ["create", "update", "partial_update", "destroy"] then
      IsSuperuser(requester)
    else false
  }

  /** The anonymous user may list and retrieve tags and nothing else. */
  lemma AnonymousOnlyReads(action: Option<string>)
    ensures HasPermission(action, Anonymous) <==> action == Some("list") || action == Some("retrieve")
  {
  }

  /** A superuser may do whatever anyone may do. */
  lemma SuperuserPermittedAtLeast(action: Option<string>, requester: Requester, admin: Requester)
    requires IsSuperuser(admin)
    ensures HasPermission(action, requester) ==> HasPermission(action, admin)
  {
  }

  // ---------------------------------------------------------------- serializers

  datatype Serializer = TourSerializer | TourDetailSerializer | TagSerializer

  const SummaryFields := ["id", "title", "time_minutes", "link"]

  /** The fields each serializer renders; the tour detail one extends the summary one. */
  function Fields(s: Serializer): (fields: seq<string>)
    ensures "id" in fields
    ensures s != TagSerializer ==> "title" in fields && "link" in fields
    ensures ("description" in fields) <==> s == TourDetailSerializer
    ensures ("name" in fields) <==> s == TagSerializer
  {
    match s
    case TourSerializer => SummaryFields
    case TourDetailSerializer => SummaryFields + ["description", "pricing_options", "tags"]
    case TagSerializer => ["id", "name"]
  }

  /** The fields each serializer declares read-only: the id everywhere, the
      nested pricing options and tags of the detail serializer, and the tag's name. */
  function ReadOnlyFields(s: Serializer): set<string>
  {
    match s
    case TourSerializer => {"id"}
    case TourDetailSerializer => {"id", "pricing_options", "tags"}
    case TagSerializer => {"id", "name"}
  }

  /** The fields a request may set through `s`. */
  function WritableFields(s: Serializer): (fields: set<string>)
    ensures "id" !in fields
    ensures forall f :: f in fields ==> f in Fields(s)
    ensures "tags" !in fields && "pricing_options" !in fields
    ensures s == TagSerializer ==> fields == {}
    ensures s != TagSerializer ==> "title" in fields && "link" in fields
  {
    set f | f in Fields(s) && f !in ReadOnlyFields(s)
  }

  /** The detail serializer renders every summary field, in the same order, and then more. */
  lemma DetailExtendsSummary()
    ensures Fields(TourSerializer) < Fields(TourDetailSerializer)
    ensures forall f :: f in Fields(TourDetailSerializer) && f !in Fields(TourSerializer) ==>
              f in {"description", "pricing_options", "tags"}
  {
  }

  /** TourViewSet.get_serializer_class: the summary serializer for `list`, the
      detail serializer (also the class default) for every other action. */
  function SerializerFor(action: Option<string>): (s: Serializer)
    ensures s == TourSerializer <==> action == Some("list")
    ensures action != Some("list") ==> s == TourDetailSerializer
  {
    if action == Some("list") then TourSerializer
    else if action == Some("retrieve") then TourDetailSerializer
    else TourDetailSerializer
  }

  /** A tour create request can set exactly the title, duration, link and
      description (the fields of `TourInput`), never the tags; a tag create
      request can set nothing, not even the name. */
  lemma CreateSetsNoTagsOrTagName()
    ensures WritableFields(SerializerFor(Some("create"))) == {"title", "time_minutes", "link", "description"}
    ensures WritableFields(TagSerializer) == {}
  {
  }

  // ---------------------------------------------------------------- listings

  /** Tags compare by name, character by character. */
  predicate TagNameLe(a: Tag, b: Tag)
  {
    LexLe(a.name, b.name)
  }

  predicate TourIdLe(a: Tour, b: Tour)
  {
    a.id <= b.id
  }

  function TourId(t: Tour): nat
  {
    t.id
  }

  lemma TagNameOrderIsTotalPreorder()
    ensures TotalPreorder(TagNameLe)
  {
    forall a: Tag, b: Tag ensures TagNameLe(a, b) || TagNameLe(b, a) {
      LexLeTotal(a.name, b.name);
    }
    forall a: Tag, b: Tag, c: Tag | TagNameLe(a, b) && TagNameLe(b, c) ensures TagNameLe(a, c) {
      LexLeTransitive(a.name, b.name, c.name);
    }
  }

  /** TagViewSet.get_queryset: every tag, by descending name. */
  function TagListing(tags: seq<Tag>): (r: seq<Tag>)
    ensures multiset(r) == multiset(tags)
    ensures forall i, j :: 0 <= i < j < |r| ==> LexLe(r[j].name, r[i].name)
  {
    TagNameOrderIsTotalPreorder();
    SortDescending(tags, TagNameLe)
  }

  /** TourViewSet.get_queryset: every tour, by descending id; with distinct ids
      the order is strict. */
  function TourListing(tours: seq<Tour>): (r: seq<Tour>)
    ensures multiset(r) == multiset(tours)
    ensures forall i, j :: 0 <= i < j < |r| ==> r[j].id <= r[i].id
    ensures KeysDistinct(tours, TourId) ==> forall i, j :: 0 <= i < j < |r| ==> r[j].id < r[i].id
  {
    var r := SortDescending(tours, TourIdLe);
    SortedByDistinctIdsIsStrict(tours, r);
    r
  }

  /** Sorting tours with distinct ids by id leaves no two with the same id. */
  lemma SortedByDistinctIdsIsStrict(tours: seq<Tour>, r: seq<Tour>)
    requires r == SortDescending(tours, TourIdLe)
    ensures KeysDistinct(tours, TourId) ==> forall i, j :: 0 <= i < j < |r| ==> r[j].id < r[i].id
  {
    if KeysDistinct(tours, TourId) {
      SortKeepsKeysDistinct(tours, TourIdLe, TourId);
      forall i, j | 0 <= i < j < |r| ensures r[j].id < r[i].id {
        assert TourIdLe(r[j], r[i]);
        assert TourId(r[i]) != TourId(r[j]);
      }
    }
  }

  // ---------------------------------------------------------------- tag store

  /** A tag name the create request's serializer would accept if the field were
      writable: present, not blank and at most 255 characters. */
  predicate ValidTagName(name: Option<string>)
  {
    name.Some? && name.value != "" && |name.value| <= 255
  }

  /** The permission class admits to the tag create and destroy handlers only
      superusers, so the handlers' own superuser refusals are never sent. */
  lemma HandlerGuardsUnreachable(requester: Requester)
    ensures HasPermission(Some("create"), requester) ==> IsSuperuser(requester)
    ensures HasPermission(Some("destroy"), requester) ==> IsSuperuser(requester)
  {
  }

  class TagStore {
    var tags: seq<Tag>
    var nextId: nat

    /** Ids are distinct and below the next id to hand out. */
    ghost predicate Valid()
      reads this
    {
      (forall i :: 0 <= i < |tags| ==> tags[i].id < nextId) &&
      KeysDistinct(tags, (t: Tag) => t.id)
    }

    constructor ()
      ensures Valid() && tags == []
    {
      tags := [];
      nextId := 1;
    }

    /** The listing the tag endpoints serve: every stored tag, by descending name. */
    function Listing(): (r: seq<Tag>)
      reads this
      ensures multiset(r) == multiset(tags)
      ensures forall i, j :: 0 <= i < j < |r| ==> LexLe(r[j].name, r[i].name)
    {
      TagListing(tags)
    }

    /** TagViewSet.create, the handler itself: a non-superuser gets 403 with the
        handler's message; otherwise the serializer, which has no writable field,
        saves a tag with the empty name whatever name was requested. */
    method HandleCreate(requester: Requester, name: Option<string>) returns (resp: Response)
      requires Valid()
      modifies this
      ensures Valid()
      ensures !IsSuperuser(requester) ==>
                resp == Response(ForbiddenStatus, Error("Only superusers can create tags.")) &&
                tags == old(tags) && nextId == old(nextId)
      ensures IsSuperuser(requester) ==>
                resp == Response(CreatedStatus, TagData(Tag(old(nextId), ""))) &&
                tags == old(tags) + [Tag(old(nextId), "")]
    {
      if !IsSuperuser(requester) {
        return Response(ForbiddenStatus, Error("Only superusers can create tags."));
      }
      resp := Insert("");
    }

    /** The tag create endpoint as written: the permission class runs before the
        handler, so a refused request gets the framework's denial and only a
        superuser reaches the handler, where the requested name is dropped. */
    method CreateAsWritten(requester: Requester, name: Option<string>) returns (resp: Response)
      requires Valid()
      modifies this
      ensures Valid()
      ensures !HasPermission(Some("create"), requester) ==>
                resp == PermissionDenied(requester) && tags == old(tags) && nextId == old(nextId)
      ensures HasPermission(Some("create"), requester) ==>
                resp == Response(CreatedStatus, TagData(Tag(old(nextId), ""))) &&
                tags == old(tags) + [Tag(old(nextId), "")]
    {
      if !HasPermission(Some("create"), requester) {
        return PermissionDenied(requester);
      }
      resp := HandleCreate(requester, name);
    }

    /** The tag create endpoint with the name writable: a refused request gets
        the framework's denial, an invalid name 400, both leaving the table as it
        was; otherwise the tag is stored under a fresh id and returned with 201. */
    method Create(requester: Requester, name: Option<string>) returns (resp: Response)
      requires Valid()
      modifies this
      ensures Valid()
      ensures !HasPermission(Some("create"), requester) ==> resp == PermissionDenied(requester)
      ensures HasPermission(Some("create"), requester) && !ValidTagName(name) ==>
                resp == Response(BadRequestStatus, InvalidField("name"))
      ensures resp.status != CreatedStatus ==> tags == old(tags) && nextId == old(nextId)
      ensures resp.status == CreatedStatus <==> IsSuperuser(requester) && ValidTagName(name)
      ensures resp.status == CreatedStatus ==>
                resp.body == TagData(Tag(old(nextId), name.value)) &&
                tags == old(tags) + [Tag(old(nextId), name.value)] &&
                forall i :: 0 <= i < |old(tags)| ==> old(tags)[i].id != old(nextId)
    {
      if !HasPermission(Some("create"), requester) {
        return PermissionDenied(requester);
      }
      if !ValidTagName(name) {
        return Response(BadRequestStatus, InvalidField("name"));
      }
      resp := Insert(name.value);
    }

    /** Stores a tag named `name` under the next id. */
    method Insert(name: string) returns (resp: Response)
      requires Valid()
      modifies this
      ensures Valid()
      ensures resp == Response(CreatedStatus, TagData(Tag(old(nextId), name)))
      ensures tags == old(tags) + [Tag(old(nextId), name)] && nextId == old(nextId) + 1
    {
      var tag := Tag(nextId, name);
      tags := tags + [tag];
      nextId := nextId + 1;
      resp := Response(CreatedStatus, TagData(tag));
    }

    /** TagViewSet.destroy, the handler itself: a non-superuser gets 403 with the
        handler's message; a superuser naming no stored tag gets 404; otherwise
        the tag is removed and 204 returned. */
    method HandleDestroy(requester: Requester, id: nat) returns (resp: Response)
      requires Valid()
      modifies this
      ensures Valid() && nextId == old(nextId)
      ensures !IsSuperuser(requester) ==>
                resp == Response(ForbiddenStatus, Error("Only superusers can delete tags.")) &&
                tags == old(tags)
      ensures IsSuperuser(requester) && (forall i :: 0 <= i < |old(tags)| ==> old(tags)[i].id != id) ==>
                resp.status == NotFoundStatus && tags == old(tags)
      ensures resp.status == NoContentStatus ==>
                exists k :: 0 <= k < |old(tags)| && old(tags)[k].id == id &&
                  tags == old(tags)[..k] + old(tags)[k + 1..]
      ensures IsSuperuser(requester) && (exists i :: 0 <= i < |old(tags)| && old(tags)[i].id == id) ==>
                resp == Response(NoContentStatus, NoContent)
      ensures IsSuperuser(requester) ==> forall t :: t in tags ==> t.id != id
    {
      if !IsSuperuser(requester) {
        return Response(ForbiddenStatus, Error("Only superusers can delete tags."));
      }
      if k :| 0 <= k < |tags| && tags[k].id == id {
        ghost var before := tags;
        tags := tags[..k] + tags[k + 1..];
        assert forall i :: 0 <= i < |tags| ==> tags[i] == (if i < k then before[i] else before[i + 1]);
        forall t | t in tags ensures t.id != id {
          var i :| 0 <= i < |tags| && tags[i] == t;
          if i < k { assert before[i] == t; } else { assert before[i + 1] == t; }
        }
        resp := Response(NoContentStatus, NoContent);
      } else {
        resp := Response(NotFoundStatus, Error("Not found."));
      }
    }

    /** The tag destroy endpoint: the permission class runs before the handler,
        so a refused request gets the framework's denial and deletes nothing. */
    method Destroy(requester: Requester, id: nat) returns (resp: Response)
      requires Valid()
      modifies this
      ensures Valid() && nextId == old(nextId)
      ensures !HasPermission(Some("destroy"), requester) ==>
                resp == PermissionDenied(requester) && tags == old(tags)
      ensures HasPermission(Some("destroy"), requester) &&
              (forall i :: 0 <= i < |old(tags)| ==> old(tags)[i].id != id) ==>
                resp.status == NotFoundStatus && tags == old(tags)
      ensures HasPermission(Some("destroy"), requester) &&
              (exists i :: 0 <= i < |old(tags)| && old(tags)[i].id == id) ==>
                resp == Response(NoContentStatus, NoContent) &&
                exists k :: 0 <= k < |old(tags)| && old(tags)[k].id == id &&
                  tags == old(tags)[..k] + old(tags)[k + 1..]
      ensures HasPermission(Some("destroy"), requester) ==> forall t :: t in tags ==> t.id != id
    {
      if !HasPermission(Some("destroy"), requester) {
        return PermissionDenied(requester);
      }
      resp := HandleDestroy(requester, id);
    }
  }

  // ---------------------------------------------------------------- tour store

  /** The tour a create request saves: the input's fields, the given id and
      owner, and no tags, since the create serializer cannot set them. */
  function NewTour(id: nat, owner: nat, input: TourInput): (t: Tour)
    ensures t.id == id && t.owner == owner && t.tags == {}
    ensures t.title == input.title && t.description == input.description
    ensures t.timeMinutes == input.timeMinutes && t.link == input.link
  {
    Tour(id, owner, input.title, input.description, input.timeMinutes, input.link, {})
  }

  class TourStore {
    var tours: seq<Tour>
    var nextId: nat

    ghost predicate Valid()
      reads this
    {
      (forall i :: 0 <= i < |tours| ==> tours[i].id < nextId) &&
      KeysDistinct(tours, TourId)
    }

    constructor ()
      ensures Valid() && tours == []
    {
      tours := [];
      nextId := 1;
    }

    /** The listing the tour endpoints serve: all tours, strictly by descending id. */
    function Listing(): (r: seq<Tour>)
      reads this
      requires Valid()
      ensures multiset(r) == multiset(tours)
      ensures forall i, j :: 0 <= i < j < |r| ==> r[j].id < r[i].id
    {
      TourListing(tours)
    }

    /** TourViewSet.perform_create: a non-superuser gets the 403 response and
        nothing is saved; a superuser's tour is saved under a fresh id with the
        requesting user as its owner. */
    method PerformCreate(requester: Requester, input: TourInput) returns (r: Result<Tour, Response>)
      requires Valid()
      modifies this
      ensures Valid()
      ensures !IsSuperuser(requester) ==>
                r == Err(Response(ForbiddenStatus, Error("Only superusers can create tours."))) &&
                tours == old(tours) && nextId == old(nextId)
      ensures IsSuperuser(requester) ==>
                r == Ok(NewTour(old(nextId), requester.userId, input)) &&
                tours == old(tours) + [r.value] &&
                forall i :: 0 <= i < |old(tours)| ==> old(tours)[i].id != r.value.id
    {
      if !IsSuperuser(requester) {
        return Err(Response(ForbiddenStatus, Error("Only superusers can create tours.")));
      }
      var tour := NewTour(nextId, requester.userId, input);
      tours := tours + [tour];
      nextId := nextId + 1;
      r := Ok(tour);
    }

    /** The create endpoint as it behaves around perform_create: the framework's
        create handler ignores what perform_create returns and always answers 201,
        so a refused request is reported as created though nothing was saved. */
    method CreateAsWritten(requester: Requester, input: TourInput) returns (resp: Response)
      requires Valid()
      modifies this
      ensures Valid()
      ensures resp.status == CreatedStatus
      ensures !IsSuperuser(requester) ==> tours == old(tours) && resp.body == UnsavedTourData(input)
      ensures IsSuperuser(requester) ==>
                tours == old(tours) + [NewTour(old(nextId), requester.userId, input)] &&
                resp.body == TourData(NewTour(old(nextId), requester.userId, input))
    {
      var r := PerformCreate(requester, input);
      resp := Response(CreatedStatus, if r.Ok? then TourData(r.value) else UnsavedTourData(input));
    }

    /** The create endpoint with perform_create's refusal passed on: 403 and no
        new row for a non-superuser, 201 with the saved tour for a superuser. */
    method Create(requester: Requester, input: TourInput) returns (resp: Response)
      requires Valid()
      modifies this
      ensures Valid()
      ensures resp.status == CreatedStatus <==> IsSuperuser(requester)
      ensures !IsSuperuser(requester) ==>
                resp == Response(ForbiddenStatus, Error("Only superusers can create tours.")) &&
                tours == old(tours)
      ensures IsSuperuser(requester) ==>
                tours == old(tours) + [NewTour(old(nextId), requester.userId, input)] &&
                resp.body == TourData(NewTour(old(nextId), requester.userId, input)) &&
                forall i :: 0 <= i < |old(tours)| ==> old(tours)[i].id != old(nextId)
    {
      var r := PerformCreate(requester, input);
      resp := match r
        case Ok(tour) => Response(CreatedStatus, TourData(tour))
        case Err(refusal) => refusal;
    }
  }

  const SampleTourInput := TourInput("Sample tour title", "Sample description", 22,
                                     "http://example.com/tour.pdf")

  /** A non-superuser's tour request through the endpoint as written: answered
      201 while the table stays empty. */
  method RefusedTourReportedCreated() returns (status: nat, stored: nat)
    ensures status == CreatedStatus && stored == 0
  {
    var store := new TourStore();
    var resp := store.CreateAsWritten(Member(2, false), SampleTourInput);
    status, stored := resp.status, |store.tours|;
  }

  /** The same request through the corrected endpoint: 403 and an empty table. */
  method RefusedTourForbidden() returns (status: nat, stored: nat)
    ensures status == ForbiddenStatus && stored == 0
  {
    var store := new TourStore();
    var resp := store.Create(Member(2, false), SampleTourInput);
    status, stored := resp.status, |store.tours|;
  }

  /** A superuser's request for a tag named "Vegan" through the endpoint as
      written: the stored tag's name is empty. */
  method RequestedTagNameLost() returns (stored: string)
    ensures stored == "" && stored != "Vegan"
  {
    var store := new TagStore();
    var resp := store.CreateAsWritten(Member(1, true), Some("Vegan"));
    stored := store.tags[0].name;
  }

  /** The same request through the corrected endpoint keeps the name. */
  method RequestedTagNameKept() returns (stored: string)
    ensures stored == "Vegan"
  {
    var store := new TagStore();
    var resp := store.Create(Member(1, true), Some("Vegan"));
    stored := store.tags[0].name;
  }
}
