/**
 * The appliance graph that ApiClient.GetAppliances builds (ApiClient.cs): for every location,
 * every room, every appliance of a known type, the appliance with its room, its location and its
 * status dictionary, keyed by appliance id.
 */
module ApplianceGraph {
  import opened Wrappers
  import opened Dictionaries
  import opened Appliances

  datatype Location = Location(id: int, name: string)
  datatype Room = Room(id: int, name: string)

  /** An appliance as GetAppliances returns it: re-read from its JSON as its concrete type. */
  datatype Appliance = Appliance(
    id: string,
    name: string,
    lastSeen: Option<int>,
    kind: ApplianceType,
    json: ApplianceJson,
    room: Room,
    location: Location,
    status: Dict<string, int>,
    snoozedUntil: Option<int>) // SnoozedUntil of a SenseGuard appliance; None for Sense

  /** What the cloud answers to the GETs of the graph; a missing entry is a failed request. */
  datatype Inventory = Inventory(
    rooms: map<int, seq<Room>>,                              // locations/{l}/rooms
    appliances: map<(int, int), seq<ApplianceJson>>,         // locations/{l}/rooms/{r}/appliances
    status: map<(int, int, string), seq<StatusEntry>>)       // .../appliances/{a}/status

  function IdOf(a: Appliance): string { a.id }
  function Self(a: Appliance): Appliance { a }

  /** Appliances keyed by id, in order. */
  function Keyed(xs: seq<Appliance>): Dict<string, Appliance> {
    Pairs(xs, IdOf, Self)
  }

  /** Deserializing a JSON array with the converter: the first element that fails throws. */
  function ReadAll(js: seq<ApplianceJson>): (r: Result<seq<BaseAppliance>>)
    ensures r.Ok? <==> forall i :: 0 <= i < |js| ==> Read(js[i]).Ok?
    ensures r.Ok? ==> |r.value| == |js| && forall i :: 0 <= i < |js| ==> Ok(r.value[i]) == Read(js[i])
  {
    if js == [] then Ok([])
    else match Read(js[0])
      case Err(e) => Err(e)
      case Ok(b) =>
        match ReadAll(js[1..])
        case Err(e) => Err(e)
        case Ok(bs) => Ok([b] + bs)
  }

  /**
   * One appliance of a known type: re-read as its concrete type, given its room and location,
   * and its status fetched and turned into a dictionary.
   */
  function Hydrate(inv: Inventory, loc: Location, room: Room, b: BaseAppliance): Result<Appliance> {
    var key := (loc.id, room.id, b.json.id);
    if key !in inv.status then Err(HttpRequest)
    else match StatusMap(inv.status[key])
      case Err(e) => Err(e)
      case Ok(status) =>
        Ok(Appliance(b.json.id, b.json.name, b.json.lastSeen, b.kind, b.json, room, loc, status,
          if b.kind == SenseGuard then b.json.snoozedUntil else None))
  }

  // The graph in the shape of the nested loops: each level continues from the dictionary built so far.

  function ApplianceLevel(inv: Inventory, loc: Location, room: Room, bs: seq<BaseAppliance>, acc: Dict<string, Appliance>)
    : Result<Dict<string, Appliance>>
    decreases |bs|
  {
    if bs == [] then Ok(acc)
    else if bs[0].kind == Unknown then ApplianceLevel(inv, loc, room, bs[1..], acc)
    else match Hydrate(inv, loc, room, bs[0])
      case Err(e) => Err(e)
      case Ok(a) =>
        match Add(acc, a.id, a)
        case Err(e) => Err(e)
        case Ok(acc') => ApplianceLevel(inv, loc, room, bs[1..], acc')
  }

  function RoomLevel(inv: Inventory, loc: Location, rooms: seq<Room>, acc: Dict<string, Appliance>)
    : Result<Dict<string, Appliance>>
    decreases |rooms|
  {
    if rooms == [] then Ok(acc)
    else if (loc.id, rooms[0].id) !in inv.appliances then Err(HttpRequest)
    else match ReadAll(inv.appliances[(loc.id, rooms[0].id)])
      case Err(e) => Err(e)
      case Ok(bs) =>
        match ApplianceLevel(inv, loc, rooms[0], bs, acc)
        case Err(e) => Err(e)
        case Ok(acc') => RoomLevel(inv, loc, rooms[1..], acc')
  }

  function LocationLevel(inv: Inventory, locs: seq<Location>, acc: Dict<string, Appliance>)
    : Result<Dict<string, Appliance>>
    decreases |locs|
  {
    if locs == [] then Ok(acc)
    else if locs[0].id !in inv.rooms then Err(HttpRequest)
    else match RoomLevel(inv, locs[0], inv.rooms[locs[0].id], acc)
      case Err(e) => Err(e)
      case Ok(acc') => LocationLevel(inv, locs[1..], acc')
  }

  /** The dictionary GetAppliances builds from the locations (in the order of the location dictionary). */
  function Graph(inv: Inventory, locs: seq<Location>): Result<Dict<string, Appliance>> {
    LocationLevel(inv, locs, [])
  }

  // The reference definition: the flat list of the known appliances, with no dictionary.

  function KnownAppliances(inv: Inventory, loc: Location, room: Room, bs: seq<BaseAppliance>): Result<seq<Appliance>>
    decreases |bs|
  {
    if bs == [] then Ok([])
    else if bs[0].kind == Unknown then KnownAppliances(inv, loc, room, bs[1..])
    else match Hydrate(inv, loc, room, bs[0])
      case Err(e) => Err(e)
      case Ok(a) =>
        match KnownAppliances(inv, loc, room, bs[1..])
        case Err(e) => Err(e)
        case Ok(rest) => Ok([a] + rest)
  }

  function KnownInRooms(inv: Inventory, loc: Location, rooms: seq<Room>): Result<seq<Appliance>>
    decreases |rooms|
  {
    if rooms == [] then Ok([])
    else if (loc.id, rooms[0].id) !in inv.appliances then Err(HttpRequest)
    else match ReadAll(inv.appliances[(loc.id, rooms[0].id)])
      case Err(e) => Err(e)
      case Ok(bs) =>
        match KnownAppliances(inv, loc, rooms[0], bs)
        case Err(e) => Err(e)
        case Ok(xs) =>
          match KnownInRooms(inv, loc, rooms[1..])
          case Err(e) => Err(e)
          case Ok(ys) => Ok(xs + ys)
  }

  function Known(inv: Inventory, locs: seq<Location>): Result<seq<Appliance>>
    decreases |locs|
  {
    if locs == [] then Ok([])
    else if locs[0].id !in inv.rooms then Err(HttpRequest)
    else match KnownInRooms(inv, locs[0], inv.rooms[locs[0].id])
      case Err(e) => Err(e)
      case Ok(xs) =>
        match Known(inv, locs[1..])
        case Err(e) => Err(e)
        case Ok(ys) => Ok(xs + ys)
  }

  /** Adding a flat list of appliances to a dictionary under their ids. */
  function Extend(acc: Dict<string, Appliance>, r: Result<seq<Appliance>>): Result<Dict<string, Appliance>> {
    match r
    case Err(e) => Err(e)
    case Ok(xs) => AddAll(acc, Keyed(xs))
  }

  /** Two outcomes agree when both fail, or both succeed with the same value. */
  predicate Agree(r1: Result<Dict<string, Appliance>>, r2: Result<Dict<string, Appliance>>) {
    r1.Ok? == r2.Ok? && (r1.Ok? ==> r1.value == r2.value)
  }

  lemma KeyedAppend(xs: seq<Appliance>, ys: seq<Appliance>)
    ensures Keyed(xs + ys) == Keyed(xs) + Keyed(ys)
  {
  }

  /** Extending by xs + ys is extending by xs, then by ys. */
  lemma ExtendAppend(acc: Dict<string, Appliance>, xs: seq<Appliance>, r: Result<seq<Appliance>>)
    ensures Extend(acc, if r.Ok? then Ok(xs + r.value) else Err(r.error)) ==
      match AddAll(acc, Keyed(xs))
      case Err(e) => if r.Ok? then Err(e) else Err(r.error)
      case Ok(a) => Extend(a, r)
  {
    if r.Ok? {
      KeyedAppend(xs, r.value);
      AddAllAppend(acc, Keyed(xs), Keyed(r.value));
    }
  }

  lemma {:induction false} ApplianceLevelAgrees(inv: Inventory, loc: Location, room: Room, bs: seq<BaseAppliance>, acc: Dict<string, Appliance>)
    ensures Agree(ApplianceLevel(inv, loc, room, bs, acc), Extend(acc, KnownAppliances(inv, loc, room, bs)))
    decreases |bs|
  {
    if bs != [] && bs[0].kind != Unknown && Hydrate(inv, loc, room, bs[0]).Ok? {
      var a := Hydrate(inv, loc, room, bs[0]).value;
      var rest := KnownAppliances(inv, loc, room, bs[1..]);
      ExtendAppend(acc, [a], rest);
      assert Keyed([a])[0] == (IdOf(a), Self(a));
      assert Keyed([a]) == [(a.id, a)];
      assert AddAll(acc, Keyed([a])) == Add(acc, a.id, a);
      if Add(acc, a.id, a).Ok? {
        ApplianceLevelAgrees(inv, loc, room, bs[1..], Add(acc, a.id, a).value);
      }
    } else if bs != [] && bs[0].kind == Unknown {
      ApplianceLevelAgrees(inv, loc, room, bs[1..], acc);
    }
  }

  lemma {:induction false} RoomLevelAgrees(inv: Inventory, loc: Location, rooms: seq<Room>, acc: Dict<string, Appliance>)
    ensures Agree(RoomLevel(inv, loc, rooms, acc), Extend(acc, KnownInRooms(inv, loc, rooms)))
    decreases |rooms|
  {
    if rooms != [] && (loc.id, rooms[0].id) in inv.appliances && ReadAll(inv.appliances[(loc.id, rooms[0].id)]).Ok? {
      var bs := ReadAll(inv.appliances[(loc.id, rooms[0].id)]).value;
      ApplianceLevelAgrees(inv, loc, rooms[0], bs, acc);
      var known := KnownAppliances(inv, loc, rooms[0], bs);
      if known.Ok? {
        var rest := KnownInRooms(inv, loc, rooms[1..]);
        ExtendAppend(acc, known.value, rest);
        if AddAll(acc, Keyed(known.value)).Ok? {
          RoomLevelAgrees(inv, loc, rooms[1..], AddAll(acc, Keyed(known.value)).value);
        }
      }
    }
  }

  lemma {:induction false} LocationLevelAgrees(inv: Inventory, locs: seq<Location>, acc: Dict<string, Appliance>)
    ensures Agree(LocationLevel(inv, locs, acc), Extend(acc, Known(inv, locs)))
    decreases |locs|
  {
    if locs != [] && locs[0].id in inv.rooms {
      var rooms := inv.rooms[locs[0].id];
      RoomLevelAgrees(inv, locs[0], rooms, acc);
      var known := KnownInRooms(inv, locs[0], rooms);
      if known.Ok? {
        var rest := Known(inv, locs[1..]);
        ExtendAppend(acc, known.value, rest);
        if AddAll(acc, Keyed(known.value)).Ok? {
          LocationLevelAgrees(inv, locs[1..], AddAll(acc, Keyed(known.value)).value);
        }
      }
    }
  }

  /**
   * The graph is the list of known appliances keyed by id: it is built exactly when every
   * request succeeds and no appliance id repeats (a repeated id makes Add throw).
   */
  lemma GraphSpec(inv: Inventory, locs: seq<Location>)
    ensures Graph(inv, locs).Ok? <==>
      Known(inv, locs).Ok? &&
      forall i, j :: 0 <= i < j < |Known(inv, locs).value| ==> Known(inv, locs).value[i].id != Known(inv, locs).value[j].id
    ensures Graph(inv, locs).Ok? ==> Graph(inv, locs).value == Keyed(Known(inv, locs).value)
  {
    LocationLevelAgrees(inv, locs, []);
    if Known(inv, locs).Ok? {
      var xs := Known(inv, locs).value;
      ToDictionarySpec(xs, IdOf, Self);
      assert ToDictionary(xs, IdOf, Self) == AddAll([], Keyed(xs));
    }
  }

  /** Where an appliance of the list came from: which location, room and JSON element. */
  predicate FromCloud(inv: Inventory, locs: seq<Location>, a: Appliance) {
    a.location in locs && a.location.id in inv.rooms && a.room in inv.rooms[a.location.id]
    && (a.location.id, a.room.id) in inv.appliances && a.json in inv.appliances[(a.location.id, a.room.id)]
    && (a.location.id, a.room.id, a.id) in inv.status
    && StatusMap(inv.status[(a.location.id, a.room.id, a.id)]) == Ok(a.status)
  }

  /** What each known appliance carries: a known type read from its element, and its own status. */
  predicate WellFormed(a: Appliance) {
    a.kind != Unknown && Read(a.json).Ok? && Read(a.json).value.kind == a.kind
    && a.id == a.json.id && a.name == a.json.name && a.lastSeen == a.json.lastSeen
    && a.snoozedUntil == (if a.kind == SenseGuard then a.json.snoozedUntil else None)
  }

  lemma {:induction false} KnownAppliancesSound(inv: Inventory, loc: Location, room: Room, js: seq<ApplianceJson>, bs: seq<BaseAppliance>)
    requires ReadAll(js) == Ok(bs) && (loc.id, room.id) in inv.appliances
    requires forall j :: j in js ==> j in inv.appliances[(loc.id, room.id)]
    requires KnownAppliances(inv, loc, room, bs).Ok?
    ensures forall a :: a in KnownAppliances(inv, loc, room, bs).value ==>
      WellFormed(a) && a.location == loc && a.room == room && a.json in inv.appliances[(loc.id, room.id)]
      && (loc.id, room.id, a.id) in inv.status && StatusMap(inv.status[(loc.id, room.id, a.id)]) == Ok(a.status)
    decreases |bs|
  {
    if bs != [] {
      assert Ok(bs[0]) == Read(js[0]) && js[0] in js;
      assert ReadAll(js[1..]) == Ok(bs[1..]);
      KnownAppliancesSound(inv, loc, room, js[1..], bs[1..]);
    }
  }

  lemma {:induction false} KnownInRoomsSound(inv: Inventory, loc: Location, rooms: seq<Room>)
    requires KnownInRooms(inv, loc, rooms).Ok?
    ensures forall a :: a in KnownInRooms(inv, loc, rooms).value ==>
      WellFormed(a) && a.location == loc && a.room in rooms
      && (loc.id, a.room.id) in inv.appliances && a.json in inv.appliances[(loc.id, a.room.id)]
      && (loc.id, a.room.id, a.id) in inv.status && StatusMap(inv.status[(loc.id, a.room.id, a.id)]) == Ok(a.status)
    decreases |rooms|
  {
    if rooms != [] {
      var js := inv.appliances[(loc.id, rooms[0].id)];
      var bs := ReadAll(js).value;
      KnownAppliancesSound(inv, loc, rooms[0], js, bs);
      KnownInRoomsSound(inv, loc, rooms[1..]);
    }
  }

  /**
   * Every appliance of the graph is of a known type, carries the room and location it was listed
   * under and the status dictionary fetched for it, and is keyed by its own id.
   */
  lemma {:induction false} KnownSound(inv: Inventory, locs: seq<Location>)
    requires Known(inv, locs).Ok?
    ensures forall a :: a in Known(inv, locs).value ==> WellFormed(a) && FromCloud(inv, locs, a)
    decreases |locs|
  {
    if locs != [] {
      KnownInRoomsSound(inv, locs[0], inv.rooms[locs[0].id]);
      KnownSound(inv, locs[1..]);
    }
  }

  /** The graph holds only well-formed appliances from the cloud, each under its own id. */
  lemma GraphSound(inv: Inventory, locs: seq<Location>)
    requires Graph(inv, locs).Ok?
    ensures UniqueKeys(Graph(inv, locs).value)
    ensures forall i :: 0 <= i < |Graph(inv, locs).value| ==>
      var (k, a) := Graph(inv, locs).value[i]; k == a.id && WellFormed(a) && FromCloud(inv, locs, a)
  {
    GraphSpec(inv, locs);
    var xs := Known(inv, locs).value;
    KnownSound(inv, locs);
    var g := Graph(inv, locs).value;
    assert g == Keyed(xs);
    assert forall i :: 0 <= i < |xs| ==> g[i] == (IdOf(xs[i]), Self(xs[i]));
    forall i | 0 <= i < |g| ensures g[i].0 == g[i].1.id && WellFormed(g[i].1) && FromCloud(inv, locs, g[i].1) {
      assert g[i] == (xs[i].id, xs[i]) && xs[i] in xs;
    }
    forall i, j | 0 <= i < j < |g| ensures g[i].0 != g[j].0 {
      assert g[i].0 == xs[i].id && g[j].0 == xs[j].id;
    }
  }

  /** The nested foreach loops of GetAppliances, after the locations are known. */
  method FetchAppliances(inv: Inventory, locations: seq<Location>) returns (r: Result<Dict<string, Appliance>>)
    ensures r == Graph(inv, locations)
  {
    var appliances: Dict<string, Appliance> := [];
    var i := 0;
    while i < |locations|
      invariant 0 <= i <= |locations|
      invariant Graph(inv, locations) == LocationLevel(inv, locations[i..], appliances)
    {
      var location := locations[i];
      assert locations[i..][0] == location && locations[i..][1..] == locations[i + 1..];
      if location.id !in inv.rooms {
        return Err(HttpRequest);
      }
      var rooms := inv.rooms[location.id];
      ghost var atLocation := appliances;
      var j := 0;
      while j < |rooms|
        invariant 0 <= j <= |rooms|
        invariant RoomLevel(inv, location, rooms, atLocation) == RoomLevel(inv, location, rooms[j..], appliances)
      {
        var room := rooms[j];
        assert rooms[j..][0] == room && rooms[j..][1..] == rooms[j + 1..];
        if (location.id, room.id) !in inv.appliances {
          return Err(HttpRequest);
        }
        var read := ReadAll(inv.appliances[(location.id, room.id)]);
        if read.Err? {
          return Err(read.error);
        }
        var baseAppliances := read.value;
        ghost var atRoom := appliances;
        var k := 0;
        while k < |baseAppliances|
          invariant 0 <= k <= |baseAppliances|
          invariant ApplianceLevel(inv, location, room, baseAppliances, atRoom)
            == ApplianceLevel(inv, location, room, baseAppliances[k..], appliances)
        {
          var baseAppliance := baseAppliances[k];
          assert baseAppliances[k..][0] == baseAppliance && baseAppliances[k..][1..] == baseAppliances[k + 1..];
          if baseAppliance.kind != Unknown {
            var hydrated := Hydrate(inv, location, room, baseAppliance);
            if hydrated.Err? {
              return Err(hydrated.error);
            }
            var appliance := hydrated.value;
            var added := Add(appliances, appliance.id, appliance);
            if added.Err? {
              return Err(added.error);
            }
            appliances := added.value;
          }
          k := k + 1;
        }
        j := j + 1;
      }
      i := i + 1;
    }
    return Ok(appliances);
  }
}
