/** The front-end CrudAbstract base class: each call tries the remote API first
    and, on the failures that mean "the API is not there", flips the instance into
    mock mode for good and serves the call from an in-memory list per endpoint.
    The remote call's outcome, the generated id and the clock are parameters. */
module CrudAbstract {
  import opened Wrappers
  import opened Seqs
  import opened Text
  import opened Json

  /** What the axios call produced. */
  datatype ApiReply =
    | Ok(data: Json)
    | AxiosFailure(status: Option<int>, message: string)
    | OtherFailure

  /** What a call throws: the remote failure it does not handle, a mock-mode
      update of an id the list lacks, or the TypeError of reading `length` from a
      null response body (not an axios error, so it is rethrown). */
  datatype CrudError = Rethrown(reply: ApiReply) | NotInStore(id: string) | NullBody

  /** Where an answer came from: the API's response body, or the mock list. */
  datatype Answer<T> = FromApi(data: Json) | FromMock(value: T)

  /** The mock-mode answer of `findAllPaginated`. */
  datatype Page = Page(items: seq<Obj>, total: int, page: int, limit: int, totalPages: int)

  /** An axios error whose response status is 404. */
  predicate IsNotFound(reply: ApiReply) {
    reply.AxiosFailure? && reply.status == Some(404)
  }

  /** `mockStorage[endpoint]`, empty when it was never initialised. */
  function Stored(lists: map<string, seq<Obj>>, endpoint: string): seq<Obj> {
    if endpoint in lists then lists[endpoint] else []
  }

  /** `initMockStorage`: an endpoint without a list gets an empty one; an existing
      list (even an empty one, which JavaScript treats as truthy) is kept. */
  function Init(lists: map<string, seq<Obj>>, endpoint: string): (r: map<string, seq<Obj>>)
    ensures endpoint in r && r[endpoint] == Stored(lists, endpoint)
    ensures endpoint in lists ==> r == lists
    ensures forall e :: e in lists ==> e in r && r[e] == lists[e]
    ensures r.Keys == lists.Keys + {endpoint}
  {
    if endpoint in lists then lists else lists[endpoint := []]
  }

  /** `(item as any).id === id`. */
  function HasId(id: string): Obj -> bool {
    (o: Obj) => "id" in o && o["id"] == JStr(id)
  }

  /** The mock `create` record: the given fields, then a fresh `id` and both
      timestamps, which win over fields of the same name. */
  function Created(data: Obj, newId: string, now: string): (r: Obj)
    ensures r.Keys == data.Keys + {"id", "createdAt", "updatedAt"}
    ensures r["id"] == JStr(newId) && r["createdAt"] == JStr(now) && r["updatedAt"] == JStr(now)
    ensures forall k :: k in data && k !in {"id", "createdAt", "updatedAt"} ==> r[k] == data[k]
  {
    data["id" := JStr(newId)]["createdAt" := JStr(now)]["updatedAt" := JStr(now)]
  }

  /** The mock `update` record: the stored fields overlaid by the sent ones, with a
      fresh `updatedAt`. */
  function Merged(item: Obj, data: Obj, now: string): (r: Obj)
    ensures r.Keys == item.Keys + data.Keys + {"updatedAt"}
    ensures r["updatedAt"] == JStr(now)
    ensures forall k :: k in data && k != "updatedAt" ==> r[k] == data[k]
    ensures forall k :: k in item && k !in data && k != "updatedAt" ==> r[k] == item[k]
  {
    (item + data)["updatedAt" := JStr(now)]
  }

  /** A position as `Array.prototype.slice` reads it: negative counts from the end,
      and the result is clamped to the length. */
  function SliceIndex(i: int, length: nat): (r: nat)
    ensures r <= length
    ensures 0 <= i <= length ==> r == i
  {
    if i < 0 then (if length + i < 0 then 0 else length + i)
    else if i > length then length
    else i
  }

  /** `s.slice(start, end)`. */
  function Slice<T>(s: seq<T>, start: int, end: int): (r: seq<T>)
    ensures 0 <= start <= end ==>
              r == s[(if start <= |s| then start else |s|)..(if end <= |s| then end else |s|)]
  {
    var a := SliceIndex(start, |s|);
    var b := SliceIndex(end, |s|);
    if a < b then s[a..b] else []
  }

  /** A negative `slice` bound counts back from the end of `s`, clamped at its start. */
  lemma SliceFromEnd<T>(s: seq<T>, start: int, end: int)
    ensures start < 0 <= end ==>
              var a := if |s| + start < 0 then 0 else |s| + start;
              var b := if end <= |s| then end else |s|;
              Slice(s, start, end) == (if a < b then s[a..b] else [])
    ensures start <= end < 0 ==>
              Slice(s, start, end) ==
                (if |s| + end <= 0 then [] else s[(if |s| + start < 0 then 0 else |s| + start)..|s| + end])
  {
  }

  /** `Math.ceil(total / limit)` for a non-negative total and a non-zero limit. */
  function CeilDiv(total: nat, limit: int): (r: int)
    requires limit != 0
    ensures limit > 0 ==> (r - 1) * limit < total <= r * limit
    ensures limit > 0 ==> r >= 0
    ensures limit < 0 ==> r * limit <= total < (r - 1) * limit
    ensures limit < 0 ==> r <= 0
  {
    if limit > 0 then (total + limit - 1) / limit else -(total / -limit)
  }

  /** `options.page || 1` and `options.limit || 10`: an absent or zero value takes
      the default. */
  function OrDefault(v: Option<int>, default: int): (r: int)
    ensures v.Some? && v.value != 0 ==> r == v.value
    ensures !(v.Some? && v.value != 0) ==> r == default
    ensures r == 0 ==> default == 0
  {
    if v.Some? && v.value != 0 then v.value else default
  }

  /** The mock `findAllPaginated` answer over the endpoint's whole list. */
  function MockPage(all: seq<Obj>, page: Option<int>, limit: Option<int>): (r: Page)
    ensures r.page == OrDefault(page, 1) && r.limit == OrDefault(limit, 10)
    ensures r.total == |all|
    ensures r.page != 0 && r.limit != 0
    ensures r.totalPages == CeilDiv(|all|, r.limit)
    ensures r.page >= 1 && r.limit >= 1 ==> r.items == PageOf(all, r.page, r.limit)
    ensures r.page < 0 && r.limit >= 1 ==>
              var end := |all| + r.page * r.limit;
              r.items == (if end <= 0 then [] else all[(if end - r.limit < 0 then 0 else end - r.limit)..end])
    ensures r.limit < 0 && r.page == 1 ==> r.items == all[..if |all| + r.limit < 0 then 0 else |all| + r.limit]
    ensures r.limit < 0 && r.page != 1 ==> r.items == []
  {
    var p := OrDefault(page, 1);
    var l := OrDefault(limit, 10);
    var start := (p - 1) * l;
    if p <= 0 && l >= 1 then
      NegativePageFromEnd(all, p, l);
      Page(Slice(all, start, start + l), |all|, p, l, CeilDiv(|all|, l))
    else if l < 0 then
      NegativeLimit(all, p, l);
      Page(Slice(all, start, start + l), |all|, p, l, CeilDiv(|all|, l))
    else
      Page(Slice(all, start, start + l), |all|, p, l, CeilDiv(|all|, l))
  }

  /** The slice `MockPage` takes for a negative limit: page 1 drops the last
      `-limit` items, and every other page is empty, its end lying before its start. */
  lemma NegativeLimit(all: seq<Obj>, p: int, l: int)
    requires l < 0
    ensures p == 1 ==> Slice(all, (p - 1) * l, (p - 1) * l + l) == all[..if |all| + l < 0 then 0 else |all| + l]
    ensures p != 1 ==> Slice(all, (p - 1) * l, (p - 1) * l + l) == []
  {
    var start := (p - 1) * l;
    if p == 1 {
      assert start == 0;
    } else if p > 1 {
      assert start <= l;
    } else {
      assert start >= -l;
    }
  }

  /** The slice `MockPage` takes for a page below 1: empty for page 0, and for a
      negative page the run of at most `limit` items ending `-page * limit` items
      before the end of the list. */
  lemma NegativePageFromEnd(all: seq<Obj>, p: int, l: int)
    requires p <= 0 && l >= 1
    ensures p == 0 ==> Slice(all, (p - 1) * l, (p - 1) * l + l) == []
    ensures p < 0 ==>
              var end := |all| + p * l;
              Slice(all, (p - 1) * l, (p - 1) * l + l) ==
                (if end <= 0 then [] else all[(if end - l < 0 then 0 else end - l)..end])
  {
    var e := p * l;
    assert (p - 1) * l + l == e;
    assert p < 0 ==> e <= -l;
    SliceFromEnd(all, e - l, e);
  }

  /** Page `p` (from 1) of `all` cut into runs of `limit`. */
  function PageOf<T>(all: seq<T>, p: int, limit: int): (r: seq<T>)
    requires p >= 1 && limit >= 1
    ensures |r| <= limit
    ensures (p - 1) * limit < |all| ==> |r| > 0
  {
    var start := (p - 1) * limit;
    Slice(all, start, start + limit)
  }

  /** Pages 1..n laid end to end. */
  function FirstPages<T>(all: seq<T>, limit: int, n: nat): seq<T>
    requires limit >= 1
  {
    if n == 0 then [] else FirstPages(all, limit, n - 1) + PageOf(all, n, limit)
  }

  /** Page `n` is the run of items from where page `n - 1` ends, clamped to the list. */
  lemma PageOfIsRun<T>(all: seq<T>, limit: int, n: nat)
    requires n > 0 && limit >= 1
    ensures var a, b := (n - 1) * limit, n * limit;
            0 <= a <= b && PageOf(all, n, limit) == all[(if a <= |all| then a else |all|)..(if b <= |all| then b else |all|)]
  {
    var a := (n - 1) * limit;
    assert 0 <= a && a + limit == n * limit;
  }

  /** The first `n` pages are the first `n * limit` items. */
  lemma {:induction false} FirstPagesArePrefix<T>(all: seq<T>, limit: int, n: nat)
    requires limit >= 1
    ensures FirstPages(all, limit, n) == all[..if n * limit <= |all| then n * limit else |all|]
  {
    if n > 0 {
      FirstPagesArePrefix(all, limit, n - 1);
      PageOfIsRun(all, limit, n);
      var a, b := (n - 1) * limit, n * limit;
      var a' := if a <= |all| then a else |all|;
      var b' := if b <= |all| then b else |all|;
      assert FirstPages(all, limit, n) == all[..a'] + all[a'..b'];
      assert all[..a'] + all[a'..b'] == all[..b'];
    }
  }

  /** Pages 1..totalPages hold every item exactly once, in order. */
  lemma PagesCoverAll<T>(all: seq<T>, limit: int)
    requires limit >= 1
    ensures FirstPages(all, limit, CeilDiv(|all|, limit)) == all
  {
    var n := CeilDiv(|all|, limit);
    FirstPagesArePrefix(all, limit, n);
  }

  /** The process-wide `mockStorage` record, shared by every CrudAbstract instance. */
  class MockStorage {
    var lists: map<string, seq<Obj>>

    constructor()
      ensures lists == map[]
    {
      lists := map[];
    }
  }

  /** One CrudAbstract subclass instance: its endpoint, the shared store and the
      mock-mode flag. */
  class CrudService {
    const endpoint: string
    const storage: MockStorage
    var useMockData: bool

    /** A fresh instance always starts against the real API. */
    constructor(endpoint: string, storage: MockStorage)
      ensures this.endpoint == endpoint && this.storage == storage && !useMockData
    {
      this.endpoint := endpoint;
      this.storage := storage;
      useMockData := false;
    }

    /** `initMockStorage`. */
    method InitMockStorage()
      modifies storage
      ensures storage.lists == Init(old(storage.lists), endpoint)
    {
      if endpoint !in storage.lists {
        storage.lists := storage.lists[endpoint := []];
      }
    }

    /** `create`: in mock mode (or after a 404 switches to it) the record gets a
        fresh id and timestamps and is appended; otherwise the API's answer is
        returned or its failure rethrown. */
    method Create(data: Obj, newId: string, now: string, reply: ApiReply) returns (r: Result<Answer<Obj>, CrudError>)
      modifies this, storage
      ensures useMockData == (old(useMockData) || IsNotFound(reply))
      ensures useMockData ==>
                var item := Created(data, newId, now);
                r == Success(FromMock(item)) &&
                storage.lists == Init(old(storage.lists), endpoint)[endpoint := Stored(old(storage.lists), endpoint) + [item]]
      ensures !useMockData ==> storage.lists == old(storage.lists)
      ensures !useMockData && reply.Ok? ==> r == Success(FromApi(reply.data))
      ensures !useMockData && !reply.Ok? ==> r == Failure(Rethrown(reply))
    {
      if !useMockData {
        if reply.Ok? {
          return Success(FromApi(reply.data));
        }
        if !IsNotFound(reply) {
          return Failure(Rethrown(reply));
        }
        useMockData := true;
      }
      InitMockStorage();
      var item := Created(data, newId, now);
      storage.lists := storage.lists[endpoint := storage.lists[endpoint] + [item]];
      r := Success(FromMock(item));
    }

    /** `findAll`: the API's answer, or, on any axios error, mock mode and a copy
        of the mock list. A non-axios error is rethrown. `findAll` has no mock
        branch of its own, so it asks the API even in mock mode. */
    method FindAll(reply: ApiReply) returns (r: Result<Answer<seq<Obj>>, CrudError>)
      modifies this, storage
      ensures useMockData == (old(useMockData) || reply.AxiosFailure?)
      ensures reply.Ok? && reply.data != JNull ==> r == Success(FromApi(reply.data)) && storage.lists == old(storage.lists)
      ensures reply.Ok? && reply.data == JNull ==> r == Failure(NullBody) && storage.lists == old(storage.lists)
      ensures reply.AxiosFailure? ==>
                storage.lists == Init(old(storage.lists), endpoint) &&
                r == Success(FromMock(Stored(old(storage.lists), endpoint)))
      ensures reply.OtherFailure? ==> r == Failure(Rethrown(reply)) && storage.lists == old(storage.lists)
    {
      if reply.Ok? {
        if reply.data == JNull {
          return Failure(NullBody);
        }
        return Success(FromApi(reply.data));
      }
      if reply.OtherFailure? {
        return Failure(Rethrown(reply));
      }
      useMockData := true;
      InitMockStorage();
      r := Success(FromMock(storage.lists[endpoint]));
    }

    /** `findAllPaginated`: in mock mode (or after a 404) one page of the mock list. */
    method FindAllPaginated(page: Option<int>, limit: Option<int>, reply: ApiReply) returns (r: Result<Answer<Page>, CrudError>)
      modifies this, storage
      ensures useMockData == (old(useMockData) || IsNotFound(reply))
      ensures useMockData ==>
                storage.lists == Init(old(storage.lists), endpoint) &&
                r == Success(FromMock(MockPage(Stored(old(storage.lists), endpoint), page, limit)))
      ensures !useMockData ==> storage.lists == old(storage.lists)
      ensures !useMockData && reply.Ok? ==> r == Success(FromApi(reply.data))
      ensures !useMockData && !reply.Ok? ==> r == Failure(Rethrown(reply))
    {
      if !useMockData {
        if reply.Ok? {
          return Success(FromApi(reply.data));
        }
        if !IsNotFound(reply) {
          return Failure(Rethrown(reply));
        }
        useMockData := true;
      }
      InitMockStorage();
      r := Success(FromMock(MockPage(storage.lists[endpoint], page, limit)));
    }

    /** `findOne`: in mock mode the first item with the id, or null. A 404 switches
        to mock mode only when the error message names the endpoint; any other 404
        answers null. */
    method FindOne(id: string, reply: ApiReply) returns (r: Result<Answer<Option<Obj>>, CrudError>)
      modifies this, storage
      ensures useMockData == (old(useMockData) || (IsNotFound(reply) && Contains(reply.message, endpoint)))
      ensures useMockData ==>
                storage.lists == Init(old(storage.lists), endpoint) &&
                r == Success(FromMock(Find(Stored(old(storage.lists), endpoint), HasId(id))))
      ensures !useMockData ==> storage.lists == old(storage.lists)
      ensures !useMockData && reply.Ok? ==> r == Success(FromApi(reply.data))
      ensures !useMockData && IsNotFound(reply) ==> r == Success(FromApi(JNull))
      ensures !useMockData && !reply.Ok? && !IsNotFound(reply) ==> r == Failure(Rethrown(reply))
    {
      if !useMockData {
        if reply.Ok? {
          return Success(FromApi(reply.data));
        }
        if !IsNotFound(reply) {
          return Failure(Rethrown(reply));
        }
        if !Contains(reply.message, endpoint) {
          return Success(FromApi(JNull));
        }
        useMockData := true;
      }
      InitMockStorage();
      r := Success(FromMock(Find(storage.lists[endpoint], HasId(id))));
    }

    /** `update`: in mock mode (or after a 404) the first item with the id is
        replaced by its merge with `data`; an unknown id throws and changes no
        list. */
    method Update(id: string, data: Obj, now: string, reply: ApiReply) returns (r: Result<Answer<Obj>, CrudError>)
      modifies this, storage
      ensures useMockData == (old(useMockData) || IsNotFound(reply))
      ensures useMockData ==>
                var items := Stored(old(storage.lists), endpoint);
                match FirstIndex(items, HasId(id))
                case None =>
                  r == Failure(NotInStore(id)) && storage.lists == Init(old(storage.lists), endpoint)
                case Some(k) =>
                  var item := Merged(items[k], data, now);
                  r == Success(FromMock(item)) &&
                  storage.lists == Init(old(storage.lists), endpoint)[endpoint := items[k := item]]
      ensures !useMockData ==> storage.lists == old(storage.lists)
      ensures !useMockData && reply.Ok? ==> r == Success(FromApi(reply.data))
      ensures !useMockData && !reply.Ok? ==> r == Failure(Rethrown(reply))
    {
      if !useMockData {
        if reply.Ok? {
          return Success(FromApi(reply.data));
        }
        if !IsNotFound(reply) {
          return Failure(Rethrown(reply));
        }
        useMockData := true;
      }
      InitMockStorage();
      var items := storage.lists[endpoint];
      var found := FirstIndex(items, HasId(id));
      if found.None? {
        return Failure(NotInStore(id));
      }
      var item := Merged(items[found.value], data, now);
      storage.lists := storage.lists[endpoint := items[found.value := item]];
      r := Success(FromMock(item));
    }

    /** `delete`: in mock mode (or after a 404) the first item with the id is
        spliced out; an unknown id is a silent no-op. */
    method Delete(id: string, reply: ApiReply) returns (r: Result<(), CrudError>)
      modifies this, storage
      ensures useMockData == (old(useMockData) || IsNotFound(reply))
      ensures useMockData ==>
                var items := Stored(old(storage.lists), endpoint);
                r.Success? &&
                match FirstIndex(items, HasId(id))
                case None => storage.lists == Init(old(storage.lists), endpoint)
                case Some(k) => storage.lists == Init(old(storage.lists), endpoint)[endpoint := RemoveAt(items, k)]
      ensures !useMockData ==> storage.lists == old(storage.lists)
      ensures !useMockData ==> (r.Success? <==> reply.Ok?)
      ensures !useMockData && !reply.Ok? ==> r == Failure(Rethrown(reply))
    {
      if !useMockData {
        if reply.Ok? {
          return Success(());
        }
        if !IsNotFound(reply) {
          return Failure(Rethrown(reply));
        }
        useMockData := true;
      }
      InitMockStorage();
      var items := storage.lists[endpoint];
      var found := FirstIndex(items, HasId(id));
      if found.Some? {
        storage.lists := storage.lists[endpoint := RemoveAt(items, found.value)];
      }
      r := Success(());
    }
  }
}
