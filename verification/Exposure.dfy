/**
 * The exposure filter (dispatcher.py): which entities are listed, bucketed into dashboards,
 * answered for and pushed.
 */
module Exposure {
  import opened Bytes
  import opened Sorting

  /** Parsed JSON. */
  datatype Json =
    | Null
    | Bool(b: bool)
    | Num(n: real)
    | Str(s: string)
    | Arr(items: seq<Json>)
    | Obj(fields: map<string, Json>)

  // ── Home Assistant's registries ───────────────────────────────────────────

  datatype Label = Label(id: string, name: string)

  datatype Entry = Entry(entityId: string, labels: set<string>, deviceId: Option<string>, area: Option<string>)

  datatype EntityState = EntityState(entityId: string, domain: string, value: string,
                                     attributes: map<string, Json>, lastChanged: Option<string>)

  datatype Area = Area(id: string, name: string, icon: Option<string>)

  /**
   * Each order lists the keys of its map the way the registry iterates over them. lower is the
   * language's str.lower.
   */
  datatype Registries = Registries(
    areas: seq<Area>,
    labels: seq<Label>,
    labelByName: map<string, Label>,
    entities: map<string, Entry>,
    entityOrder: seq<string>,
    devices: map<string, set<string>>,
    states: map<string, EntityState>,
    stateOrder: seq<string>,
    lower: string -> string)

  predicate Lists<V>(order: seq<string>, m: map<string, V>)
  {
    (forall i :: 0 <= i < |order| ==> order[i] in m) &&
    (forall k :: k in m ==> k in order) &&
    forall i, j :: 0 <= i < j < |order| ==> order[i] != order[j]
  }

  predicate Consistent(home: Registries)
  {
    Lists(home.entityOrder, home.entities) && Lists(home.stateOrder, home.states) &&
    (forall i, j :: 0 <= i < j < |home.labels| ==> home.labels[i].id != home.labels[j].id) &&
    (forall k :: k in home.entities ==> home.entities[k].entityId == k) &&
    (forall k :: k in home.states ==> home.states[k].entityId == k)
  }

  type Home = r: Registries | Consistent(r) witness Registries([], [], map[], map[], [], map[], map[], [], Itself)

  // ── Helpers of the source ─────────────────────────────────────────────────

  const LABEL_BTDASH := "BTDASH"
  const LABEL_BTDASHAA := "BTDASHAA"
  const DASH_PREFIX := "DASH_"

  function ExposureLabelIds(home: Home): set<string>
  {
    set name | name in {LABEL_BTDASH, LABEL_BTDASHAA} && name in home.labelByName :: home.labelByName[name].id
  }

  /** An entity's own labels together with those of its device. */
  function EntityLabelIds(home: Home, entry: Entry): set<string>
  {
    entry.labels +
    if entry.deviceId.Some? && entry.deviceId.value != "" && entry.deviceId.value in home.devices
    then home.devices[entry.deviceId.value] else {}
  }

  predicate IsExposed(home: Home, entityId: string)
  {
    if entityId !in home.entities then false
    else
      var labelIds := EntityLabelIds(home, home.entities[entityId]);
      if labelIds == {} then false else labelIds * ExposureLabelIds(home) != {}
  }

  // ── ANS_DEVICES ───────────────────────────────────────────────────────────

  const SLIM_ATTR_KEYS: set<string> := {
    "device_class", "unit_of_measurement", "state_class", "supported_features",
    "brightness", "supported_color_modes", "color_mode",
    "min_color_temp_kelvin", "max_color_temp_kelvin", "color_temp_kelvin",
    "percentage", "percentage_step",
    "current_position",
    "hvac_modes", "min_temp", "max_temp", "current_temperature", "temperature",
    "target_temp_low", "target_temp_high", "target_temp_step",
    "hvac_action", "preset_mode", "preset_modes",
    "media_title", "volume_level",
    "min", "max", "step",
    "options",
    "humidity", "min_humidity", "max_humidity"}

  datatype Device = Device(id: string, name: Json, domain: string, area: Json, value: string,
                           attrs: map<string, Json>, labels: seq<string>)

  function OrNull(text: Option<string>): Json
  {
    match text
    case None => Null
    case Some(s) => Str(s)
  }

  /** The names of the labels with the given ids. */
  function LabelNames(labels: seq<Label>, ids: set<string>): seq<string>
  {
    if labels == [] then []
    else (if labels[0].id in ids then [labels[0].name] else []) + LabelNames(labels[1..], ids)
  }

  /** The name an entity goes by. */
  function NameOf(state: EntityState): Json
  {
    if "friendly_name" in state.attributes then state.attributes["friendly_name"] else Str(state.entityId)
  }

  function DeviceOf(home: Home, state: EntityState, entry: Entry): Device
  {
    Device(state.entityId,
           NameOf(state),
           state.domain, OrNull(entry.area), state.value,
           map k | k in state.attributes && k in SLIM_ATTR_KEYS :: state.attributes[k],
           Sorted(LabelNames(home.labels, EntityLabelIds(home, entry))))
  }

  /** Whether an entity with a state is listed for the requested area (null: everywhere). */
  predicate Listed(home: Home, area: Json, id: string)
  {
    id in home.entities &&
    EntityLabelIds(home, home.entities[id]) * ExposureLabelIds(home) != {} &&
    (area == Null || OrNull(home.entities[id].area) == area)
  }

  function IfListed(home: Home, area: Json, id: string): seq<Device>
    requires id in home.states
  {
    if Listed(home, area, id) then [DeviceOf(home, home.states[id], home.entities[id])] else []
  }

  /** The listed entities among the given ones, in their order. */
  function DevicesAmong(home: Home, area: Json, ids: seq<string>): (ds: seq<Device>)
    requires forall i :: 0 <= i < |ids| ==> ids[i] in home.states
  {
    if ids == [] then []
    else
      var n := |ids| - 1;
      DevicesAmong(home, area, ids[..n]) + IfListed(home, area, ids[n])
  }

  function Devices(home: Home, area: Json): seq<Device>
  {
    DevicesAmong(home, area, home.stateOrder)
  }

  method HandleReqDevices(home: Home, area: Json) returns (entities: seq<Device>)
    ensures entities == Devices(home, area)
  {
    entities := [];
    var exposureIds := ExposureLabelIds(home);
    if exposureIds == {} {
      NothingListed(home, area, home.stateOrder);
      return;
    }
    for i := 0 to |home.stateOrder|
      invariant entities == DevicesAmong(home, area, home.stateOrder[..i])
    {
      var state := home.states[home.stateOrder[i]];
      DevicesNext(home, area, home.stateOrder, i);
      if state.entityId !in home.entities {
        continue;
      }
      var entry := home.entities[state.entityId];
      if EntityLabelIds(home, entry) * exposureIds == {} {
        continue;
      }
      if area != Null && OrNull(entry.area) != area {
        continue;
      }
      entities := entities + [DeviceOf(home, state, entry)];
    }
    assert home.stateOrder[..|home.stateOrder|] == home.stateOrder;
  }

  lemma DevicesNext(home: Home, area: Json, ids: seq<string>, n: nat)
    requires n < |ids| && forall i :: 0 <= i < |ids| ==> ids[i] in home.states
    ensures DevicesAmong(home, area, ids[..n + 1])
         == DevicesAmong(home, area, ids[..n]) + IfListed(home, area, ids[n])
  {
    assert ids[..n + 1][..n] == ids[..n];
  }

  lemma {:induction false} NothingListed(home: Home, area: Json, ids: seq<string>)
    requires ExposureLabelIds(home) == {} && forall i :: 0 <= i < |ids| ==> ids[i] in home.states
    ensures DevicesAmong(home, area, ids) == []
  {
    if ids == [] {
    } else {
      NothingListed(home, area, ids[..|ids| - 1]);
    }
  }

  // ── ANS_DASHBOARDS ────────────────────────────────────────────────────────

  datatype Dashboard = Dashboard(id: string, urlPath: string, title: string, entityIds: seq<string>)

  predicate IsDashboard(dash: Label)
  {
    DASH_PREFIX <= dash.name
  }

  function DashLabels(labels: seq<Label>): (r: seq<Label>)
    ensures forall l :: l in r <==> l in labels && IsDashboard(l)
  {
    if labels == [] then []
    else (if IsDashboard(labels[0]) then [labels[0]] else []) + DashLabels(labels[1..])
  }

  /** The exposure test of the dashboard pass: skipped when no exposure label exists. */
  predicate PassesDashboardFilter(home: Home, id: string)
    requires id in home.entities
  {
    ExposureLabelIds(home) == {} || EntityLabelIds(home, home.entities[id]) * ExposureLabelIds(home) != {}
  }

  predicate Carries(home: Home, labelId: string, id: string)
  {
    id in home.entities && labelId in EntityLabelIds(home, home.entities[id])
  }

  /** The ids that satisfy p, in order. */
  function Filter(p: string -> bool, ids: seq<string>): (r: seq<string>)
    ensures forall x :: x in r <==> x in ids && p(x)
  {
    if ids == [] then []
    else
      var n := |ids| - 1;
      Filter(p, ids[..n]) + if p(ids[n]) then [ids[n]] else []
  }

  /** What the pass over the given ids appends to the bucket of a label. */
  function Bucket(home: Home, labelId: string, ids: seq<string>): seq<string>
  {
    if ids == [] then []
    else
      var n := |ids| - 1;
      Bucket(home, labelId, ids[..n]) +
      if Carries(home, labelId, ids[n]) && PassesDashboardFilter(home, ids[n]) then [ids[n]] else []
  }

  function DashboardOf(home: Home, dash: Label): Dashboard
  {
    var title := if |dash.name| > |DASH_PREFIX| then dash.name[|DASH_PREFIX|..] else dash.name;
    Dashboard(dash.id, home.lower(title), title, Sorted(Bucket(home, dash.id, home.entityOrder)))
  }

  function DashboardList(home: Home, labels: seq<Label>): (r: seq<Dashboard>)
    ensures |r| == |labels|
    ensures forall i :: 0 <= i < |labels| ==> r[i] == DashboardOf(home, labels[i])
  {
    seq(|labels|, i requires 0 <= i < |labels| => DashboardOf(home, labels[i]))
  }

  function TitleKey(home: Home): Dashboard -> string
  {
    (d: Dashboard) => home.lower(d.title)
  }

  function Dashboards(home: Home, labels: seq<Label>): seq<Dashboard>
  {
    SortedBy(TitleKey(home), DashboardList(home, labels))
  }

  /** Every bucket holds what the pass over the given ids appends to it. */
  predicate Filled(home: Home, buckets: map<string, seq<string>>, dashIds: set<string>, ids: seq<string>)
  {
    buckets.Keys == dashIds && forall lid :: lid in dashIds ==> buckets[lid] == Bucket(home, lid, ids)
  }

  lemma BucketsNext(home: Home, dashIds: set<string>, ids: seq<string>, n: nat)
    requires n < |ids| && ids[n] in home.entities
    ensures forall lid :: lid in dashIds ==>
              Bucket(home, lid, ids[..n + 1]) ==
                Bucket(home, lid, ids[..n]) +
                if Carries(home, lid, ids[n]) && PassesDashboardFilter(home, ids[n]) then [ids[n]] else []
  {
    assert ids[..n + 1][..n] == ids[..n];
  }

  lemma FilledNext(home: Home, before: map<string, seq<string>>, after: map<string, seq<string>>,
                   dashIds: set<string>, ids: seq<string>, n: nat)
    requires n < |ids| && ids[n] in home.entities && Filled(home, before, dashIds, ids[..n])
    requires after.Keys == dashIds && forall lid :: lid in dashIds ==>
               after[lid] == before[lid] +
                 if Carries(home, lid, ids[n]) && PassesDashboardFilter(home, ids[n]) then [ids[n]] else []
    ensures Filled(home, after, dashIds, ids[..n + 1])
  {
    BucketsNext(home, dashIds, ids, n);
  }

  method FillBuckets(home: Home, exposureIds: set<string>, dashIds: set<string>)
    returns (buckets: map<string, seq<string>>)
    requires exposureIds == ExposureLabelIds(home)
    ensures Filled(home, buckets, dashIds, home.entityOrder)
  {
    buckets := map lid | lid in dashIds :: [];
    var order := home.entityOrder;
    for i := 0 to |order|
      invariant Filled(home, buckets, dashIds, order[..i])
    {
      var entry := home.entities[order[i]];
      var labels := EntityLabelIds(home, entry);
      ghost var before := buckets;
      if exposureIds != {} && labels * exposureIds == {} {
        FilledNext(home, before, buckets, dashIds, order, i);
        continue;
      }
      buckets := AppendToBuckets(buckets, labels * dashIds, entry.entityId);
      FilledNext(home, before, buckets, dashIds, order, i);
    }
    assert order[..|order|] == order;
  }

  method AppendToBuckets(previous: map<string, seq<string>>, wanted: set<string>, id: string)
    returns (buckets: map<string, seq<string>>)
    requires wanted <= previous.Keys
    ensures buckets.Keys == previous.Keys
    ensures forall lid :: lid in previous ==> buckets[lid] == previous[lid] + if lid in wanted then [id] else []
  {
    buckets := previous;
    var todo := wanted;
    while todo != {}
      invariant todo <= wanted && buckets.Keys == previous.Keys
      invariant forall lid :: lid in previous ==>
        buckets[lid] == previous[lid] + if lid in wanted && lid !in todo then [id] else []
      decreases todo
    {
      var lid :| lid in todo;
      buckets := buckets[lid := buckets[lid] + [id]];
      todo := todo - {lid};
    }
  }

  method HandleReqDashboards(home: Home) returns (dashboards: seq<Dashboard>)
    ensures dashboards == Dashboards(home, DashLabels(home.labels))
  {
    var exposureIds := ExposureLabelIds(home);
    var dashLabels := DashLabels(home.labels);
    if dashLabels == [] {
      return [];
    }
    var dashIds := set l | l in dashLabels :: l.id;
    var buckets := FillBuckets(home, exposureIds, dashIds);
    dashboards := ListDashboards(home, dashLabels, dashIds, buckets);
  }

  method ListDashboards(home: Home, dashLabels: seq<Label>, dashIds: set<string>, buckets: map<string, seq<string>>)
    returns (dashboards: seq<Dashboard>)
    requires Filled(home, buckets, dashIds, home.entityOrder)
    requires forall l :: l in dashLabels ==> l.id in dashIds
    ensures dashboards == Dashboards(home, dashLabels)
  {
    dashboards := [];
    for i := 0 to |dashLabels|
      invariant |dashboards| == i
      invariant forall j :: 0 <= j < i ==> dashboards[j] == DashboardOf(home, dashLabels[j])
    {
      var dash := dashLabels[i];
      var title := if |dash.name| > |DASH_PREFIX| then dash.name[|DASH_PREFIX|..] else dash.name;
      dashboards := dashboards + [Dashboard(dash.id, home.lower(title), title, Sorted(buckets[dash.id]))];
    }
    assert dashboards == DashboardList(home, dashLabels);
    dashboards := SortedBy(TitleKey(home), dashboards);
  }

  // ── In terms of the registries ────────────────────────────────────────────

  /** The label is on the entity, in its registry entry or on the registered device it belongs to. */
  predicate Wears(home: Home, id: string, labelId: string)
  {
    id in home.entities &&
    var entry := home.entities[id];
    labelId in entry.labels ||
    (entry.deviceId.Some? && entry.deviceId.value != "" && entry.deviceId.value in home.devices &&
     labelId in home.devices[entry.deviceId.value])
  }

  predicate WearsNamed(home: Home, id: string, name: string)
  {
    name in home.labelByName && Wears(home, id, home.labelByName[name].id)
  }

  /** Marked for the app by one of the two labels. */
  predicate Marked(home: Home, id: string)
  {
    WearsNamed(home, id, "BTDASH") || WearsNamed(home, id, "BTDASHAA")
  }

  /** Whether the registry entry of an entity is of the requested area, null standing for any. */
  predicate InArea(home: Home, id: string, area: Json)
    requires id in home.entities
  {
    area == Null || (home.entities[id].area.Some? && area == Str(home.entities[id].area.value))
  }

  lemma LabelIdsWorn(home: Home, id: string, labelId: string)
    requires id in home.entities
    ensures labelId in EntityLabelIds(home, home.entities[id]) <==> Wears(home, id, labelId)
  {
  }

  lemma ExposureIds(home: Home, labelId: string)
    ensures labelId in ExposureLabelIds(home) <==>
            ("BTDASH" in home.labelByName && home.labelByName["BTDASH"].id == labelId) ||
            ("BTDASHAA" in home.labelByName && home.labelByName["BTDASHAA"].id == labelId)
  {
    if "BTDASH" in home.labelByName {
      assert "BTDASH" in {LABEL_BTDASH, LABEL_BTDASHAA};
    }
    if "BTDASHAA" in home.labelByName {
      assert "BTDASHAA" in {LABEL_BTDASH, LABEL_BTDASHAA};
    }
  }

  lemma SharedLabel(home: Home, id: string)
    requires id in home.entities
    ensures EntityLabelIds(home, home.entities[id]) * ExposureLabelIds(home) != {} <==> Marked(home, id)
  {
    var both := EntityLabelIds(home, home.entities[id]) * ExposureLabelIds(home);
    if labelId :| labelId in both {
      ExposureIds(home, labelId);
      LabelIdsWorn(home, id, labelId);
    }
    forall name | WearsNamed(home, id, name) && (name == "BTDASH" || name == "BTDASHAA")
      ensures home.labelByName[name].id in both
    {
      ExposureIds(home, home.labelByName[name].id);
      LabelIdsWorn(home, id, home.labelByName[name].id);
    }
  }

  /**
   * An entity is exposed exactly when it is registered and the label registered as BTDASH or the one
   * registered as BTDASHAA is on its entry or on its device.
   */
  lemma ExposedIff(home: Home, id: string)
    ensures IsExposed(home, id) <==> Marked(home, id)
  {
    if id in home.entities {
      SharedLabel(home, id);
    }
  }

  lemma ListedIff(home: Home, area: Json, id: string)
    ensures Listed(home, area, id) <==> Marked(home, id) && InArea(home, id, area)
  {
    if id in home.entities {
      SharedLabel(home, id);
    }
  }

  // ── Agreement ─────────────────────────────────────────────────────────────

  predicate AnswersState(home: Home, id: string)
  {
    id in home.states && IsExposed(home, id)
  }

  predicate HasId(devices: seq<Device>, id: string)
  {
    exists i :: 0 <= i < |devices| && devices[i].id == id
  }

  predicate InDevices(home: Home, area: Json, id: string)
  {
    HasId(Devices(home, area), id)
  }

  lemma HasIdAppend(a: seq<Device>, b: seq<Device>, id: string)
    ensures HasId(a + b, id) <==> HasId(a, id) || HasId(b, id)
  {
    var c := a + b;
    if i :| 0 <= i < |a| && a[i].id == id {
      assert c[i].id == id;
    }
    if i :| 0 <= i < |b| && b[i].id == id {
      assert c[|a| + i].id == id;
    }
  }

  lemma {:induction false} DevicesAmongIds(home: Home, area: Json, ids: seq<string>, id: string)
    requires forall i :: 0 <= i < |ids| ==> ids[i] in home.states
    ensures HasId(DevicesAmong(home, area, ids), id) <==> id in ids && Listed(home, area, id)
  {
    if ids == [] {
    } else {
      var n := |ids| - 1;
      DevicesAmongIds(home, area, ids[..n], id);
      HasIdAppend(DevicesAmong(home, area, ids[..n]), IfListed(home, area, ids[n]), id);
      OneDevice(home, area, ids[n], id);
      assert id in ids <==> id in ids[..n] || id == ids[n];
    }
  }

  lemma OneDevice(home: Home, area: Json, id: string, x: string)
    requires id in home.states
    ensures HasId(IfListed(home, area, id), x) <==> x == id && Listed(home, area, id)
  {
    if Listed(home, area, id) {
      assert IfListed(home, area, id)[0].id == id;
    }
  }

  predicate Distinct(ds: seq<Device>)
  {
    forall i, j :: 0 <= i < j < |ds| ==> ds[i].id != ds[j].id
  }

  lemma DistinctAppend(ds: seq<Device>, d: Device)
    requires Distinct(ds) && !HasId(ds, d.id)
    ensures Distinct(ds + [d])
  {
    forall i, j | 0 <= i < j < |ds| + 1
      ensures (ds + [d])[i].id != (ds + [d])[j].id
    {
      assert ds[i].id != d.id;
    }
  }

  /** The labels of this name on the entity or its device. */
  function Worn(home: Home, id: string, name: string): set<Label>
  {
    set l | l in home.labels && l.name == name && Wears(home, id, l.id)
  }

  /**
   * An entry says of its entity: state, domain, name and area as they stand; of the attributes the slim
   * ones, unchanged; and the names of exactly the labels carried, in order and as often as carried.
   */
  ghost predicate Truthful(home: Home, d: Device)
  {
    d.id in home.states && Marked(home, d.id) &&
    var state, entry := home.states[d.id], home.entities[d.id];
    d.value == state.value && d.domain == state.domain &&
    d.name == (if "friendly_name" in state.attributes then state.attributes["friendly_name"] else Str(d.id)) &&
    d.area == (if entry.area.Some? then Str(entry.area.value) else Null) &&
    d.attrs.Keys == state.attributes.Keys * SLIM_ATTR_KEYS &&
    (forall k :: k in d.attrs ==> d.attrs[k] == state.attributes[k]) &&
    LabelsTold(home, d)
  }

  ghost predicate LabelsTold(home: Home, d: Device)
  {
    Ordered(Itself, d.labels) && forall name :: multiset(d.labels)[name] == |Worn(home, d.id, name)|
  }

  predicate DistinctLabels(labels: seq<Label>)
  {
    forall i, j :: 0 <= i < j < |labels| ==> labels[i].id != labels[j].id
  }

  function NamedAmong(labels: seq<Label>, ids: set<string>, name: string): set<Label>
  {
    set l | l in labels && l.name == name && l.id in ids
  }

  lemma {:induction false} NamedLabels(labels: seq<Label>, ids: set<string>, name: string)
    requires DistinctLabels(labels)
    ensures multiset(LabelNames(labels, ids))[name] == |NamedAmong(labels, ids, name)|
  {
    if labels == [] {
    } else {
      var l, rest := labels[0], labels[1..];
      NamedLabels(rest, ids, name);
      NamedFirst(labels, ids, name);
      var own := if l.id in ids then [l.name] else [];
      assert multiset(own + LabelNames(rest, ids)) == multiset(own) + multiset(LabelNames(rest, ids));
    }
  }

  lemma NamedFirst(labels: seq<Label>, ids: set<string>, name: string)
    requires DistinctLabels(labels) && labels != []
    ensures var l, rest := labels[0], NamedAmong(labels[1..], ids, name);
            l !in rest &&
            NamedAmong(labels, ids, name) == rest + if l.name == name && l.id in ids then {l} else {}
  {
    assert labels == [labels[0]] + labels[1..];
  }

  lemma ListedTruthful(home: Home, area: Json, id: string)
    requires id in home.states && Listed(home, area, id)
    ensures Truthful(home, DeviceOf(home, home.states[id], home.entities[id]))
  {
    var ids := EntityLabelIds(home, home.entities[id]);
    ListedIff(home, area, id);
    SortedSorts(Itself, LabelNames(home.labels, ids));
    forall name
      ensures multiset(Sorted(LabelNames(home.labels, ids)))[name] == |Worn(home, id, name)|
    {
      NamedLabels(home.labels, ids, name);
      NamedAreWorn(home, id, name);
    }
  }

  lemma NamedAreWorn(home: Home, id: string, name: string)
    requires id in home.entities
    ensures NamedAmong(home.labels, EntityLabelIds(home, home.entities[id]), name) == Worn(home, id, name)
  {
    forall l
      ensures l in NamedAmong(home.labels, EntityLabelIds(home, home.entities[id]), name) <==> l in Worn(home, id, name)
    {
      LabelIdsWorn(home, id, l.id);
    }
  }

  /** The entities to be listed for an area. */
  function IsListed(home: Home, area: Json): string -> bool
  {
    (id: string) => Marked(home, id) && InArea(home, id, area)
  }

  function Ids(ds: seq<Device>): (ids: seq<string>)
    ensures |ids| == |ds| && forall i :: 0 <= i < |ds| ==> ids[i] == ds[i].id
  {
    seq(|ds|, i requires 0 <= i < |ds| => ds[i].id)
  }

  /** The devices come in the order of the states. */
  predicate InStateOrder(home: Home, ds: seq<Device>)
  {
    forall i, j :: 0 <= i < j < |ds| ==> ComesBefore(home.stateOrder, ds[i].id, ds[j].id)
  }

  predicate ComesBefore(order: seq<string>, x: string, y: string)
  {
    exists a, b :: 0 <= a < b < |order| && order[a] == x && order[b] == y
  }

  /**
   * However the registries look, ANS_DEVICES lists exactly the entities with a state that are marked and
   * of the area, each once and in the order of the states, and tells the truth about them.
   */
  lemma DevicesTruthful(home: Home, area: Json)
    ensures Ids(Devices(home, area)) == Filter(IsListed(home, area), home.stateOrder)
    ensures forall id :: InDevices(home, area, id) <==> id in home.states && Marked(home, id) && InArea(home, id, area)
    ensures Distinct(Devices(home, area)) && InStateOrder(home, Devices(home, area))
    ensures forall d <- Devices(home, area) :: Truthful(home, d)
  {
    AmongTruthful(home, area, home.stateOrder);
    AmongInOrder(home, area, home.stateOrder);
    forall id
      ensures InDevices(home, area, id) <==> id in home.states && Marked(home, id) && InArea(home, id, area)
    {
      DevicesAmongIds(home, area, home.stateOrder, id);
      ListedIff(home, area, id);
    }
    DevicesOrdered(home, area);
  }

  lemma DevicesOrdered(home: Home, area: Json)
    requires Ids(Devices(home, area)) == Filter(IsListed(home, area), home.stateOrder)
    ensures InStateOrder(home, Devices(home, area))
  {
    var ds := Devices(home, area);
    forall i, j | 0 <= i < j < |ds|
      ensures ComesBefore(home.stateOrder, ds[i].id, ds[j].id)
    {
      FilterKeepsOrder(IsListed(home, area), home.stateOrder, i, j);
      assert Ids(ds)[i] == ds[i].id && Ids(ds)[j] == ds[j].id;
    }
  }

  lemma {:induction false} AmongInOrder(home: Home, area: Json, ids: seq<string>)
    requires forall i :: 0 <= i < |ids| ==> ids[i] in home.states
    ensures Ids(DevicesAmong(home, area, ids)) == Filter(IsListed(home, area), ids)
  {
    if ids == [] {
    } else {
      var n := |ids| - 1;
      AmongInOrder(home, area, ids[..n]);
      IdsAppend(DevicesAmong(home, area, ids[..n]), IfListed(home, area, ids[n]));
      IdIfListed(home, area, ids[n]);
    }
  }

  lemma IdsAppend(a: seq<Device>, b: seq<Device>)
    ensures Ids(a + b) == Ids(a) + Ids(b)
  {
  }

  lemma IdIfListed(home: Home, area: Json, id: string)
    requires id in home.states
    ensures Ids(IfListed(home, area, id)) == if IsListed(home, area)(id) then [id] else []
  {
    ListedIff(home, area, id);
  }

  /** Of two kept ids the first kept came first. */
  lemma {:induction false} FilterKeepsOrder(p: string -> bool, ids: seq<string>, i: nat, j: nat)
    requires i < j < |Filter(p, ids)|
    ensures exists a, b :: 0 <= a < b < |ids| && ids[a] == Filter(p, ids)[i] && ids[b] == Filter(p, ids)[j]
    decreases |ids|
  {
    var n := |ids| - 1;
    var before := Filter(p, ids[..n]);
    if j < |before| {
      FilterKeepsOrder(p, ids[..n], i, j);
      var a, b :| 0 <= a < b < n && ids[..n][a] == before[i] && ids[..n][b] == before[j];
      assert ids[a] == before[i] && ids[b] == before[j];
    } else {
      assert before[i] in ids[..n];
      var a :| 0 <= a < n && ids[..n][a] == before[i];
      assert ids[a] == before[i] && ids[n] == Filter(p, ids)[j];
    }
  }

  lemma TruthfulAppend(home: Home, ds: seq<Device>, d: Device)
    requires Distinct(ds) && !HasId(ds, d.id) && Truthful(home, d) && forall x <- ds :: Truthful(home, x)
    ensures Distinct(ds + [d]) && forall x <- ds + [d] :: Truthful(home, x)
  {
    DistinctAppend(ds, d);
  }

  lemma {:induction false} AmongTruthful(home: Home, area: Json, ids: seq<string>)
    requires forall i :: 0 <= i < |ids| ==> ids[i] in home.states
    requires forall i, j :: 0 <= i < j < |ids| ==> ids[i] != ids[j]
    ensures Distinct(DevicesAmong(home, area, ids))
    ensures forall d <- DevicesAmong(home, area, ids) :: Truthful(home, d)
  {
    if ids == [] {
    } else {
      var n := |ids| - 1;
      AmongTruthful(home, area, ids[..n]);
      DevicesAmongIds(home, area, ids[..n], ids[n]);
      NextTruthful(home, area, DevicesAmong(home, area, ids[..n]), ids[n]);
    }
  }

  lemma NextTruthful(home: Home, area: Json, ds: seq<Device>, id: string)
    requires id in home.states && Distinct(ds) && !HasId(ds, id) && forall x <- ds :: Truthful(home, x)
    ensures Distinct(ds + IfListed(home, area, id))
    ensures forall x <- ds + IfListed(home, area, id) :: Truthful(home, x)
  {
    if Listed(home, area, id) {
      ListedTruthful(home, area, id);
      TruthfulAppend(home, ds, DeviceOf(home, home.states[id], home.entities[id]));
    }
  }

  /**
   * An entity's state can be asked for exactly when ANS_DEVICES lists it with no area given,
   * that is, exactly when it has a state and is marked, which is when its changes are pushed.
   * With an area, the list keeps exactly those whose registry entry names that area.
   */
  lemma ExposureAgrees(home: Home, id: string, area: Json)
    ensures AnswersState(home, id) <==> id in home.states && Marked(home, id)
    ensures AnswersState(home, id) <==> InDevices(home, Null, id)
    ensures area != Null ==>
              (InDevices(home, area, id) <==> AnswersState(home, id) && InArea(home, id, area))
  {
    ExposedIff(home, id);
    DevicesTruthful(home, Null);
    DevicesTruthful(home, area);
  }

  lemma {:induction false} BucketIsFilter(home: Home, labelId: string, p: string -> bool, ids: seq<string>)
    requires forall i :: 0 <= i < |ids| ==>
      ids[i] in home.entities && p(ids[i]) == (Carries(home, labelId, ids[i]) && PassesDashboardFilter(home, ids[i]))
    ensures Bucket(home, labelId, ids) == Filter(p, ids)
  {
    if ids == [] {
    } else {
      BucketIsFilter(home, labelId, p, ids[..|ids| - 1]);
    }
  }

  /** One of the two labels that mark entities for the app is registered. */
  predicate MarksExist(home: Home)
  {
    "BTDASH" in home.labelByName || "BTDASHAA" in home.labelByName
  }

  lemma MarksExistIff(home: Home)
    ensures MarksExist(home) <==> ExposureLabelIds(home) != {}
  {
    if "BTDASH" in home.labelByName {
      ExposureIds(home, home.labelByName["BTDASH"].id);
    }
    if "BTDASHAA" in home.labelByName {
      ExposureIds(home, home.labelByName["BTDASHAA"].id);
    }
    if labelId :| labelId in ExposureLabelIds(home) {
      ExposureIds(home, labelId);
    }
  }

  /** The entities on a dashboard: its carriers that are marked, or every carrier while no mark exists. */
  predicate OnDashboard(home: Home, labelId: string, id: string)
  {
    Wears(home, id, labelId) && (MarksExist(home) ==> Marked(home, id))
  }

  lemma OnDashboardIff(home: Home, labelId: string, id: string)
    requires id in home.entities
    ensures OnDashboard(home, labelId, id) <==> Carries(home, labelId, id) && PassesDashboardFilter(home, id)
  {
    LabelIdsWorn(home, id, labelId);
    SharedLabel(home, id);
    MarksExistIff(home);
  }

  /**
   * Once an exposure label exists, a dashboard holds the sorted ids of the marked entities
   * carrying its label; while none exists it holds every carrier, and nothing is exposed at all.
   */
  lemma DashboardAgrees(home: Home, dash: Label)
    ensures DashboardOf(home, dash).entityIds == Sorted(Filter(id => OnDashboard(home, dash.id, id), home.entityOrder))
    ensures !MarksExist(home) ==>
              Devices(home, Null) == [] && (forall id :: !Marked(home, id) && !IsExposed(home, id))
  {
    forall i | 0 <= i < |home.entityOrder|
      ensures OnDashboard(home, dash.id, home.entityOrder[i]) <==>
              Carries(home, dash.id, home.entityOrder[i]) && PassesDashboardFilter(home, home.entityOrder[i])
    {
      OnDashboardIff(home, dash.id, home.entityOrder[i]);
    }
    BucketIsFilter(home, dash.id, id => OnDashboard(home, dash.id, id), home.entityOrder);
    if !MarksExist(home) {
      MarksExistIff(home);
      NothingListed(home, Null, home.stateOrder);
    }
  }

  /** A dashboard tells of the label it stands for: title, path, and each entity on it once, in order. */
  ghost predicate TellsOf(home: Home, d: Dashboard, dash: Label)
  {
    "DASH_" <= dash.name && d.id == dash.id &&
    (if dash.name == "DASH_" then d.title == "DASH_" else dash.name == "DASH_" + d.title) &&
    d.urlPath == home.lower(d.title) &&
    Ordered(Itself, d.entityIds) &&
    forall id :: multiset(d.entityIds)[id] == if OnDashboard(home, d.id, id) then 1 else 0
  }

  lemma {:induction false} FilterOnce(p: string -> bool, ids: seq<string>, x: string)
    requires forall i, j :: 0 <= i < j < |ids| ==> ids[i] != ids[j]
    ensures multiset(Filter(p, ids))[x] == if x in ids && p(x) then 1 else 0
  {
    if ids == [] {
    } else {
      var n := |ids| - 1;
      FilterOnce(p, ids[..n], x);
      assert ids == ids[..n] + [ids[n]];
    }
  }

  lemma DashboardTells(home: Home, dash: Label)
    requires IsDashboard(dash)
    ensures TellsOf(home, DashboardOf(home, dash), dash)
  {
    var p := id => OnDashboard(home, dash.id, id);
    DashboardAgrees(home, dash);
    SortedSorts(Itself, Filter(p, home.entityOrder));
    forall id
      ensures multiset(DashboardOf(home, dash).entityIds)[id] == if OnDashboard(home, dash.id, id) then 1 else 0
    {
      FilterOnce(p, home.entityOrder, id);
    }
    TitleStripped(dash);
  }

  lemma TitleStripped(dash: Label)
    requires IsDashboard(dash)
    ensures dash.name == "DASH_" || (|dash.name| > 5 && dash.name == "DASH_" + dash.name[5..])
  {
    assert dash.name == dash.name[..5] + dash.name[5..];
  }

  predicate LabelBefore(labels: seq<Label>, x: string, y: string)
  {
    exists a, b :: 0 <= a < b < |labels| && labels[a].id == x && labels[b].id == y
  }

  lemma LaterBefore(labels: seq<Label>, x: string, y: string)
    requires labels != [] && LabelBefore(labels[1..], x, y)
    ensures LabelBefore(labels, x, y)
  {
    var a, b :| 0 <= a < b < |labels| - 1 && labels[1..][a].id == x && labels[1..][b].id == y;
    assert labels[a + 1].id == x && labels[b + 1].id == y;
  }

  lemma FirstBefore(labels: seq<Label>, l: Label)
    requires labels != [] && l in labels[1..]
    ensures LabelBefore(labels, labels[0].id, l.id)
  {
    var b :| 0 <= b < |labels| - 1 && labels[1..][b] == l;
    assert labels[0].id == labels[0].id && labels[b + 1].id == l.id;
  }

  lemma {:induction false} DashLabelsKeepOrder(labels: seq<Label>, i: nat, j: nat)
    requires i < j < |DashLabels(labels)|
    ensures LabelBefore(labels, DashLabels(labels)[i].id, DashLabels(labels)[j].id)
  {
    var rest := DashLabels(labels[1..]);
    var first := if IsDashboard(labels[0]) then 1 else 0;
    if i < first {
      FirstBefore(labels, rest[j - first]);
    } else {
      DashLabelsKeepOrder(labels[1..], i - first, j - first);
      LaterBefore(labels, rest[i - first].id, rest[j - first].id);
    }
  }

  /** Dashboards with the same lower-case title come in the order of their labels. */
  predicate TiesInLabelOrder(home: Home, ds: seq<Dashboard>)
  {
    forall i, j :: 0 <= i < j < |ds| && home.lower(ds[i].title) == home.lower(ds[j].title) ==>
      LabelBefore(home.labels, ds[i].id, ds[j].id)
  }

  lemma TiesOrdered(home: Home)
    ensures TiesInLabelOrder(home, Dashboards(home, DashLabels(home.labels)))
  {
    var key, labels := TitleKey(home), DashLabels(home.labels);
    var list, ds := DashboardList(home, labels), Dashboards(home, labels);
    SortedSorts(key, list);
    forall i, j | 0 <= i < j < |ds| && home.lower(ds[i].title) == home.lower(ds[j].title)
      ensures LabelBefore(home.labels, ds[i].id, ds[j].id)
    {
      assert WithKey(key, key(ds[i]), ds) == WithKey(key, key(ds[i]), list);
      var a, b := TieOrder(key, list, ds, i, j);
      DashLabelsKeepOrder(home.labels, a, b);
    }
  }

  lemma DashboardFromLabel(home: Home, d: Dashboard) returns (dash: Label)
    requires d in Dashboards(home, DashLabels(home.labels))
    ensures dash in home.labels && IsDashboard(dash) && d == DashboardOf(home, dash) && TellsOf(home, d, dash)
  {
    var list := DashboardList(home, DashLabels(home.labels));
    SortedSorts(TitleKey(home), list);
    assert d in multiset(list);
    var i :| 0 <= i < |list| && list[i] == d;
    dash := DashLabels(home.labels)[i];
    assert dash in DashLabels(home.labels);
    DashboardTells(home, dash);
  }

  lemma LabelHasDashboard(home: Home, dash: Label)
    requires dash in home.labels && IsDashboard(dash)
    ensures DashboardOf(home, dash) in Dashboards(home, DashLabels(home.labels))
  {
    var labels := DashLabels(home.labels);
    var list := DashboardList(home, labels);
    SortedSorts(TitleKey(home), list);
    var i :| 0 <= i < |labels| && labels[i] == dash;
    assert list[i] == DashboardOf(home, dash);
    assert DashboardOf(home, dash) in multiset(list);
  }

  predicate DistinctDashboards(ds: seq<Dashboard>)
  {
    forall i, j :: 0 <= i < j < |ds| ==> ds[i].id != ds[j].id
  }

  lemma DashboardsDistinct(home: Home)
    ensures DistinctDashboards(Dashboards(home, DashLabels(home.labels)))
  {
    var ds := Dashboards(home, DashLabels(home.labels));
    TiesOrdered(home);
    forall i, j | 0 <= i < j < |ds|
      ensures ds[i].id != ds[j].id
    {
      var x := DashboardFromLabel(home, ds[i]);
      var y := DashboardFromLabel(home, ds[j]);
      assert x == y ==> LabelBefore(home.labels, ds[i].id, ds[j].id);
    }
  }

  lemma DashboardsAscend(home: Home, i: nat)
    requires i + 1 < |Dashboards(home, DashLabels(home.labels))|
    ensures var ds := Dashboards(home, DashLabels(home.labels));
            AtMost(home.lower(ds[i].title), home.lower(ds[i + 1].title))
  {
    SortedSorts(TitleKey(home), DashboardList(home, DashLabels(home.labels)));
    OrderedAt(TitleKey(home), Dashboards(home, DashLabels(home.labels)), i);
  }

  predicate EachHasDashboard(home: Home, ds: seq<Dashboard>)
  {
    forall dash <- home.labels :: "DASH_" <= dash.name ==> exists d :: d in ds && d.id == dash.id
  }

  ghost predicate EachTells(home: Home, ds: seq<Dashboard>)
  {
    forall d <- ds :: exists dash :: dash in home.labels && TellsOf(home, d, dash)
  }

  predicate TitlesAscend(home: Home, ds: seq<Dashboard>)
  {
    forall i :: 0 <= i < |ds| - 1 ==> AtMost(home.lower(ds[i].title), home.lower(ds[i + 1].title))
  }

  /** One dashboard for each DASH_ label and no other, ordered by lower-case title, equal titles by label order. */
  ghost predicate AllDashboards(home: Home, ds: seq<Dashboard>)
  {
    EachHasDashboard(home, ds) && EachTells(home, ds) && DistinctDashboards(ds) &&
    TitlesAscend(home, ds) && TiesInLabelOrder(home, ds)
  }

  lemma DashboardsOrdered(home: Home)
    ensures AllDashboards(home, Dashboards(home, DashLabels(home.labels)))
  {
    var ds := Dashboards(home, DashLabels(home.labels));
    TiesOrdered(home);
    DashboardsDistinct(home);
    forall dash | dash in home.labels && "DASH_" <= dash.name
      ensures exists d :: d in ds && d.id == dash.id
    {
      LabelHasDashboard(home, dash);
    }
    forall d | d in ds
      ensures exists dash :: dash in home.labels && TellsOf(home, d, dash)
    {
      var _ := DashboardFromLabel(home, d);
    }
    forall i | 0 <= i < |ds| - 1
      ensures AtMost(home.lower(ds[i].title), home.lower(ds[i + 1].title))
    {
      DashboardsAscend(home, i);
    }
  }
}
