/**
 * The browser side of the map field: the component object that owns the
 * Leaflet map, at most one draggable marker and the field's state, which
 * holds the marker position as `{type: 'Point', coordinates: [lat, lng]}`.
 *
 * Leaflet objects are plain records here: a tile layer is its URL and
 * options, a marker its position, icon and draggability, and the map the
 * centre and zoom it was created with, its base layers, its layer-switch
 * control and the markers added to it. What Leaflet reports back (the
 * centre of the map, the position a marker was dragged to, the zoom after
 * zooming) enters as a parameter.
 */
module MapComponent {
  import opened Wrappers
  import opened Dicts
  import opened JsValues

  // ---------------------------------------------------------------------
  // Leaflet records
  // ---------------------------------------------------------------------

  /** A position as the component copies it: two opaque values. */
  datatype LatLng = LatLng(lat: Js, lng: Js)

  /** `L.icon(options)`. */
  datatype Icon = Icon(options: Js)

  /** `L.tileLayer(url, options)`. */
  datatype TileLayer = TileLayer(url: Js, options: Js)

  /** `L.marker(pos, {icon, draggable})`. */
  datatype Marker = Marker(pos: LatLng, icon: Icon, draggable: bool)

  /** A Leaflet map: where and how it was created, and the markers on it. */
  datatype LeafletMap = LeafletMap(
    center: LatLng,
    zoom: Js,
    layers: seq<Option<TileLayer>>,
    layerControl: Option<Dict<string, TileLayer>>,
    markers: seq<Marker>)

  /** `map.removeLayer(m)`: every occurrence of `m` leaves the map. */
  function WithoutMarker(ms: seq<Marker>, m: Marker): (r: seq<Marker>)
    ensures forall x :: x in r <==> x in ms && x != m
    ensures (forall x :: x in ms ==> x == m) ==> r == []
  {
    if ms == [] then []
    else if ms[0] == m then WithoutMarker(ms[1..], m)
    else assert ms[0] in ms; [ms[0]] + WithoutMarker(ms[1..], m)
  }

  // ---------------------------------------------------------------------
  // Constants
  // ---------------------------------------------------------------------

  /** The position used until the state supplies one. */
  const DefaultLat: Js := JNum("41.8902")
  const DefaultLng: Js := JNum("12.4923")

  function Pair(a: Js, b: Js): Js {
    JArr([a, b])
  }

  /** The bundled marker image with its shadow and anchors. */
  function DefaultIcon(): Icon {
    Icon(JObj(Dict(
      ["iconUrl", "shadowUrl", "iconSize", "shadowSize", "iconAnchor", "shadowAnchor", "popupAnchor"],
      map[
        "iconUrl" := JStr("/vendor/gis-tools/images/marker-icon.png"),
        "shadowUrl" := JStr("/vendor/gis-tools/images/marker-shadow.png"),
        "iconSize" := Pair(JNum("25"), JNum("41")),
        "shadowSize" := Pair(JNum("41"), JNum("41")),
        "iconAnchor" := Pair(JNum("12"), JNum("41")),
        "shadowAnchor" := Pair(JNum("4"), JNum("41")),
        "popupAnchor" := Pair(JNum("-3"), JNum("-41"))])))
  }

  /** The bundled icon: the package's marker image and shadow, a 25 by 41
      image anchored at its bottom tip (12, 41), and the popup opening above. */
  lemma DefaultIconContent()
    ensures DefaultIcon().options.JObj? && DefaultIcon().options.props.Valid()
    ensures |DefaultIcon().options.props.keys| == 7
    ensures Prop(DefaultIcon().options, "iconUrl") == JStr("/vendor/gis-tools/images/marker-icon.png")
    ensures Prop(DefaultIcon().options, "shadowUrl") == JStr("/vendor/gis-tools/images/marker-shadow.png")
    ensures Prop(DefaultIcon().options, "iconSize") == JArr([JNum("25"), JNum("41")])
    ensures Prop(DefaultIcon().options, "shadowSize") == JArr([JNum("41"), JNum("41")])
    ensures Prop(DefaultIcon().options, "iconAnchor") == JArr([JNum("12"), JNum("41")])
    ensures Prop(DefaultIcon().options, "shadowAnchor") == JArr([JNum("4"), JNum("41")])
    ensures Prop(DefaultIcon().options, "popupAnchor") == JArr([JNum("-3"), JNum("-41")])
  {
  }

  const OsmUrl: string := "https://tile.openstreetmap.org/{z}/{x}/{y}.png"
  const OsmAttribution: string :=
    "&copy; <a href=\"http://www.openstreetmap.org/copyright\">OpenStreetMap</a>"

  /** The OpenStreetMap layer used when no tiles are configured. */
  function OsmLayer(): TileLayer {
    TileLayer(JStr(OsmUrl), JObj(Dict(
      ["maxZoom", "attribution"],
      map["maxZoom" := JNum("19"), "attribution" := JStr(OsmAttribution)])))
  }

  // ---------------------------------------------------------------------
  // Zoom and the stored point
  // ---------------------------------------------------------------------

  /** `zoom || 10`: the configured zoom unless it is falsy. */
  function InitialZoom(zoom: Js): (r: Js)
    ensures Truthy(r)
    ensures Truthy(zoom) ==> r == zoom
    ensures !Truthy(zoom) ==> r == JNum("10")
  {
    Or(zoom, JNum("10"))
  }

  /** A configured zoom of 0 is falsy and so becomes 10. */
  lemma ZeroZoomBecomesTen()
    ensures InitialZoom(JNum("0")) == JNum("10")
    ensures InitialZoom(Undefined) == JNum("10")
  {
  }

  /** The state written for a position: latitude first, then longitude. */
  function PointState(lat: Js, lng: Js): (s: Js)
    ensures s.JObj? && s.props.Valid()
    ensures s.props.keys == ["type", "coordinates"]
    ensures Prop(s, "type") == JStr("Point")
    ensures Prop(s, "coordinates") == JArr([lat, lng])
  {
    JObj(Empty<string, Js>().Put("type", JStr("Point")).Put("coordinates", JArr([lat, lng])))
  }

  /** `state && state.coordinates`: whether the state carries a position. */
  predicate HasCoordinates(state: Js) {
    Truthy(state) && Truthy(Prop(state, "coordinates"))
  }

  /** The position `init` reads from the state: `coordinates[0]` and
      `coordinates[1]`, when the state carries coordinates at all. */
  function StoredPoint(state: Js): (r: Option<LatLng>)
    ensures r.Some? <==> HasCoordinates(state)
  {
    if HasCoordinates(state) then
      var coords := Prop(state, "coordinates");
      Some(LatLng(Element(coords, 0), Element(coords, 1)))
    else None
  }

  /** What is written for a position is read back as that position. */
  lemma PointStateRoundTrip(lat: Js, lng: Js)
    ensures StoredPoint(PointState(lat, lng)) == Some(LatLng(lat, lng))
  {
  }

  // ---------------------------------------------------------------------
  // Tile layers
  // ---------------------------------------------------------------------

  /** Every tile can have its properties read. */
  predicate AllUsable(items: seq<Js>) {
    forall i :: 0 <= i < |items| ==> !Nullish(items[i])
  }

  /** `prepareTileLayers` reads `tile.name` of every tile of an array. */
  predicate TilesUsable(tiles: Js) {
    tiles.JArr? ==> AllUsable(tiles.items)
  }

  /** The key `tileLayers[tile.name]` assigns to. */
  function NameKey(tile: Js): string
    requires !Nullish(tile)
  {
    PropertyKey(Prop(tile, "name"))
  }

  /** `L.tileLayer(tile.url, tile.options)`. */
  function LayerOf(tile: Js): TileLayer
    requires !Nullish(tile)
  {
    TileLayer(Prop(tile, "url"), Prop(tile, "options"))
  }

  /** The dictionary after the first `n` tiles of an array were assigned. */
  function LayersOfList(items: seq<Js>, n: nat): (r: Dict<string, TileLayer>)
    requires n <= |items| && AllUsable(items)
    ensures r.Valid()
    ensures |r.keys| <= n
  {
    if n == 0 then Empty()
    else LayersOfList(items, n - 1).Put(NameKey(items[n - 1]), LayerOf(items[n - 1]))
  }

  /** The key a single tile object is stored under: its name or 'Default Tile'. */
  function SingleKey(tiles: Js): string
    requires !Nullish(tiles)
  {
    PropertyKey(Or(Prop(tiles, "name"), JStr("Default Tile")))
  }

  /** What `prepareTileLayers` builds from the component's `tiles`. */
  function TileLayersOf(tiles: Js): (r: Dict<string, TileLayer>)
    requires TilesUsable(tiles)
    ensures r.Valid()
    ensures tiles.JArr? && tiles.items == [] ==> r.keys == []
  {
    if tiles.JArr? then LayersOfList(tiles.items, |tiles.items|)
    else if Truthy(tiles) && Truthy(Prop(tiles, "url")) then
      Empty().Put(SingleKey(tiles), LayerOf(tiles))
    else Empty().Put("OpenStreetMap", OsmLayer())
  }

  /** Whether one of the first `n` tiles is named `k`. */
  predicate Named(items: seq<Js>, n: nat, k: string)
    requires n <= |items| && AllUsable(items)
  {
    n > 0 && (NameKey(items[n - 1]) == k || Named(items, n - 1, k))
  }

  lemma {:induction false} NamedIndex(items: seq<Js>, n: nat, k: string)
    requires n <= |items| && AllUsable(items)
    ensures Named(items, n, k) <==> exists i :: 0 <= i < n && NameKey(items[i]) == k
  {
    if n > 0 {
      NamedIndex(items, n - 1, k);
    }
  }

  lemma {:induction false} LayersNamed(items: seq<Js>, n: nat)
    requires n <= |items| && AllUsable(items)
    ensures forall k :: k in LayersOfList(items, n).keys <==> Named(items, n, k)
  {
    if n > 0 {
      LayersNamed(items, n - 1);
      LayersOfList(items, n - 1).PutKeys(NameKey(items[n - 1]), LayerOf(items[n - 1]));
    }
  }

  /** One entry per distinct name: the keys are exactly the tile names,
      each listed once. */
  lemma LayersKeys(items: seq<Js>, n: nat, k: string)
    requires n <= |items| && AllUsable(items)
    ensures Distinct(LayersOfList(items, n).keys)
    ensures k in LayersOfList(items, n).keys <==> exists i :: 0 <= i < n && NameKey(items[i]) == k
  {
    LayersNamed(items, n);
    NamedIndex(items, n, k);
  }

  /** A later tile with the same name overwrites an earlier one: a name
      holds the layer of the last tile that carries it. */
  lemma {:induction false} LastTileWins(items: seq<Js>, n: nat, j: nat)
    requires n <= |items| && AllUsable(items)
    requires j < n
    requires forall i :: j < i < n ==> NameKey(items[i]) != NameKey(items[j])
    ensures LayersOfList(items, n).Get(NameKey(items[j])) == Some(LayerOf(items[j]))
  {
    if j < n - 1 {
      LastTileWins(items, n - 1, j);
    }
  }

  /** The first key is the first tile's name. */
  lemma {:induction false} FirstKeyIsFirstName(items: seq<Js>, n: nat)
    requires AllUsable(items) && 0 < n <= |items|
    ensures |LayersOfList(items, n).keys| > 0
    ensures LayersOfList(items, n).keys[0] == NameKey(items[0])
  {
    if n > 1 {
      FirstKeyIsFirstName(items, n - 1);
    }
  }

  /** A single tile object with a URL gives exactly one entry, under its
      name or 'Default Tile', holding its layer. */
  lemma SingleTileLayers(tiles: Js)
    requires !tiles.JArr? && Truthy(tiles) && Truthy(Prop(tiles, "url"))
    ensures TileLayersOf(tiles).keys == [SingleKey(tiles)]
    ensures TileLayersOf(tiles).Get(SingleKey(tiles)) == Some(LayerOf(tiles))
    ensures Prop(tiles, "name") == Undefined ==> SingleKey(tiles) == "Default Tile"
  {
  }

  /** Anything that is neither an array nor an object with a URL gives the
      single OpenStreetMap layer, with maximum zoom 19. */
  lemma FallbackLayers(tiles: Js)
    requires !tiles.JArr? && !(Truthy(tiles) && Truthy(Prop(tiles, "url")))
    ensures TileLayersOf(tiles).keys == ["OpenStreetMap"]
    ensures TileLayersOf(tiles).Get("OpenStreetMap") == Some(OsmLayer())
    ensures Prop(OsmLayer().options, "maxZoom") == JNum("19")
  {
  }

  // ---------------------------------------------------------------------
  // The map as created by initMap
  // ---------------------------------------------------------------------

  /** `layersArray.length > 0 ? layersArray[0] : null`. */
  function DefaultLayer(layers: Dict<string, TileLayer>): (r: Option<TileLayer>)
    requires layers.Valid()
    ensures r.None? <==> layers.keys == []
    ensures r.Some? ==> r.value == layers.vals[layers.keys[0]]
  {
    var values := layers.Values();
    if |values| > 0 then Some(values[0]) else None
  }

  /** The map `initMap` creates: centred on the component's position, at its
      zoom, showing only the default layer, with a layer-switch control over
      all prepared layers when there is more than one, and no markers. */
  function InitialMap(center: LatLng, zoom: Js, tiles: Js): (m: LeafletMap)
    requires TilesUsable(tiles)
    ensures m.markers == [] && m.center == center && m.zoom == zoom
    ensures m.layers == [DefaultLayer(TileLayersOf(tiles))]
    ensures m.layerControl.Some? <==> |TileLayersOf(tiles).keys| > 1
    ensures m.layerControl.Some? ==> m.layerControl.value == TileLayersOf(tiles)
  {
    var layers := TileLayersOf(tiles);
    LeafletMap(center, zoom, [DefaultLayer(layers)],
               if |layers.keys| > 1 then Some(layers) else None, [])
  }

  /** With a tile array, the default layer belongs to the last tile that
      shares the first tile's name. */
  lemma DefaultLayerOfArray(items: seq<Js>, j: nat)
    requires AllUsable(items) && j < |items|
    requires NameKey(items[j]) == NameKey(items[0])
    requires forall i :: j < i < |items| ==> NameKey(items[i]) != NameKey(items[0])
    ensures DefaultLayer(TileLayersOf(JArr(items))) == Some(LayerOf(items[j]))
  {
    FirstKeyIsFirstName(items, |items|);
    LastTileWins(items, |items|, j);
  }

  /** An empty tile array leaves the map with a null base layer and no control. */
  lemma EmptyTileArray(center: LatLng, zoom: Js)
    ensures InitialMap(center, zoom, JArr([])).layers == [None]
    ensures InitialMap(center, zoom, JArr([])).layerControl == None
  {
  }

  /** With a tile array, the control appears exactly when two tiles have
      different names. */
  lemma ControlIffTwoNames(center: LatLng, zoom: Js, items: seq<Js>)
    requires AllUsable(items)
    ensures InitialMap(center, zoom, JArr(items)).layerControl.Some?
        <==> exists i, j :: 0 <= i < j < |items| && NameKey(items[i]) != NameKey(items[j])
  {
    if exists i, j :: 0 <= i < j < |items| && NameKey(items[i]) != NameKey(items[j]) {
      var i, j :| 0 <= i < j < |items| && NameKey(items[i]) != NameKey(items[j]);
      TwoNamesTwoKeys(items, i, j);
    }
    if |LayersOfList(items, |items|).keys| > 1 {
      TwoKeysTwoNames(items);
    }
  }

  lemma TwoNamesTwoKeys(items: seq<Js>, i: nat, j: nat)
    requires AllUsable(items) && i < j < |items|
    requires NameKey(items[i]) != NameKey(items[j])
    ensures |LayersOfList(items, |items|).keys| > 1
  {
    var keys := LayersOfList(items, |items|).keys;
    LayersKeys(items, |items|, NameKey(items[i]));
    LayersKeys(items, |items|, NameKey(items[j]));
    var a :| 0 <= a < |keys| && keys[a] == NameKey(items[i]);
    var b :| 0 <= b < |keys| && keys[b] == NameKey(items[j]);
    assert a != b;
  }

  lemma TwoKeysTwoNames(items: seq<Js>)
    requires AllUsable(items) && |LayersOfList(items, |items|).keys| > 1
    ensures exists i, j :: 0 <= i < j < |items| && NameKey(items[i]) != NameKey(items[j])
  {
    var keys := LayersOfList(items, |items|).keys;
    LayersKeys(items, |items|, keys[0]);
    LayersKeys(items, |items|, keys[1]);
    assert keys[0] != keys[1];
    var i :| 0 <= i < |items| && NameKey(items[i]) == keys[0];
    var j :| 0 <= j < |items| && NameKey(items[j]) == keys[1];
    if j < i {
      assert NameKey(items[j]) != NameKey(items[i]);
    } else {
      assert NameKey(items[i]) != NameKey(items[j]);
    }
  }

  /** Without usable tile configuration there is one OpenStreetMap base
      layer and no control. */
  lemma NoTilesNoControl(center: LatLng, zoom: Js, tiles: Js)
    requires !tiles.JArr? && !(Truthy(tiles) && Truthy(Prop(tiles, "url")))
    ensures InitialMap(center, zoom, tiles).layers == [Some(OsmLayer())]
    ensures InitialMap(center, zoom, tiles).layerControl == None
  {
    FallbackLayers(tiles);
  }

  // ---------------------------------------------------------------------
  // The component
  // ---------------------------------------------------------------------

  /** The values of all of the component's fields at one moment. */
  datatype Fields = Fields(
    state: Js,
    zoom: Js,
    tiles: Js,
    leafletMap: Option<LeafletMap>,
    lat: Js,
    lng: Js,
    marker: Option<Marker>,
    customIcon: Js,
    markerIcon: Icon)

  class Component {
    var state: Js
    var zoom: Js
    var tiles: Js
    var leafletMap: Option<LeafletMap>
    var lat: Js
    var lng: Js
    var marker: Option<Marker>
    var customIcon: Js
    var markerIcon: Icon

    ghost function Current(): Fields
      reads this
    {
      Fields(state, zoom, tiles, leafletMap, lat, lng, marker, customIcon, markerIcon)
    }

    /** The component's marker is the only marker on the map, and there is
        no marker before there is a map. */
    ghost predicate Valid()
      reads this
    {
      && (marker.Some? ==> leafletMap.Some? && leafletMap.value.markers == [marker.value])
      && (marker.None? && leafletMap.Some? ==> leafletMap.value.markers == [])
    }

    /** The marker sits at the component's position. */
    ghost predicate Synced()
      reads this
    {
      marker.Some? && marker.value.pos == LatLng(lat, lng)
    }

    /** `mapComponent({state, zoom, tiles, customIcon})`. */
    constructor (state: Js, zoom: Js, tiles: Js, customIcon: Js)
      ensures Valid()
      ensures Current() == Fields(state, InitialZoom(zoom), Or(tiles, Null), None,
                                  DefaultLat, DefaultLng, None, customIcon, DefaultIcon())
    {
      this.state := state;
      this.zoom := InitialZoom(zoom);
      this.tiles := Or(tiles, Null);
      this.leafletMap := None;
      this.lat := DefaultLat;
      this.lng := DefaultLng;
      this.marker := None;
      this.customIcon := customIcon;
      this.markerIcon := DefaultIcon();
    }

    /** The single write path for the position and the state. */
    method UpdateStateWithCoordinates(p: LatLng)
      modifies this
      ensures Current() == old(Current()).(lat := p.lat, lng := p.lng, state := PointState(p.lat, p.lng))
      ensures StoredPoint(state) == Some(p)
    {
      lat := p.lat;
      lng := p.lng;
      state := PointState(p.lat, p.lng);
      PointStateRoundTrip(p.lat, p.lng);
    }

    /** Places a fresh draggable marker at the map centre `center`, after
        taking away the one there was; the custom icon is used when it has
        an `iconUrl`. */
    method AddMarker(center: LatLng)
      requires Valid() && leafletMap.Some? && !Nullish(customIcon)
      modifies this
      ensures Valid() && Synced()
      ensures var icon := if old(Prop(customIcon, "iconUrl")) != Undefined then Icon(customIcon)
                          else old(markerIcon);
              var m := Marker(center, icon, true);
              Current() == old(Current()).(
                markerIcon := icon,
                marker := Some(m),
                leafletMap := Some(old(leafletMap.value).(markers := [m])),
                lat := center.lat, lng := center.lng,
                state := PointState(center.lat, center.lng))
      ensures StoredPoint(state) == Some(center)
    {
      if marker.Some? {
        leafletMap := Some(leafletMap.value.(markers := WithoutMarker(leafletMap.value.markers, marker.value)));
      }
      assert leafletMap.value.markers == [];
      if Prop(customIcon, "iconUrl") != Undefined {
        markerIcon := Icon(customIcon);
      }
      var m := Marker(center, markerIcon, true);
      marker := Some(m);
      leafletMap := Some(leafletMap.value.(markers := leafletMap.value.markers + [m]));
      UpdateStateWithCoordinates(center);
    }

    /** Takes the marker off the map; without a marker nothing happens. The
        position and the state stay as they are. */
    method RemoveMarker()
      requires Valid()
      modifies this
      ensures Valid() && marker.None?
      ensures old(marker).None? ==> Current() == old(Current())
      ensures old(marker).Some? ==>
        Current() == old(Current()).(marker := None,
                                     leafletMap := Some(old(leafletMap.value).(markers := [])))
    {
      if marker.Some? {
        leafletMap := Some(leafletMap.value.(markers := WithoutMarker(leafletMap.value.markers, marker.value)));
        marker := None;
      }
    }

    /** `marker.setLatLng([lat, lng])`: moves the marker only; the map is
        not panned and the component's own position is not touched. */
    method UpdateMarkerAndMap(lat: Js, lng: Js)
      requires Valid() && marker.Some?
      modifies this
      ensures Valid() && marker.Some?
      ensures var m := old(marker.value).(pos := LatLng(lat, lng));
              Current() == old(Current()).(marker := Some(m),
                                           leafletMap := Some(old(leafletMap.value).(markers := [m])))
      ensures old(marker.value.pos) == LatLng(lat, lng) ==> Current() == old(Current())
      ensures lat == this.lat && lng == this.lng ==> Synced()
    {
      var m := marker.value.(pos := LatLng(lat, lng));
      marker := Some(m);
      leafletMap := Some(leafletMap.value.(markers := [m]));
    }

    /** The end of a drag: Leaflet has moved the marker to `p`, and the
        handler copies that position into the component and its state. */
    method MarkerDragEnd(p: LatLng)
      requires Valid() && marker.Some?
      modifies this
      ensures Valid() && Synced()
      ensures var m := old(marker.value).(pos := p);
              Current() == old(Current()).(marker := Some(m),
                                           leafletMap := Some(old(leafletMap.value).(markers := [m])),
                                           lat := p.lat, lng := p.lng,
                                           state := PointState(p.lat, p.lng))
    {
      UpdateMarkerAndMap(p.lat, p.lng);
      UpdateStateWithCoordinates(p);
    }

    /** The `zoomend` handler: the component remembers the map's zoom `z`. */
    method OnZoomEnd(z: Js)
      requires leafletMap.Some?
      modifies this
      ensures Current() == old(Current()).(zoom := z)
    {
      zoom := z;
    }

    /** `prepareTileLayers`: the tile layers by name, assigned one tile at a
        time for an array, else one named layer or the OpenStreetMap one. */
    method PrepareTileLayers() returns (tileLayers: Dict<string, TileLayer>)
      requires TilesUsable(tiles)
      ensures tileLayers == TileLayersOf(tiles)
    {
      tileLayers := Empty();
      if tiles.JArr? {
        var items := tiles.items;
        var i := 0;
        while i < |items|
          invariant i <= |items|
          invariant tileLayers == LayersOfList(items, i)
        {
          tileLayers := tileLayers.Put(NameKey(items[i]), LayerOf(items[i]));
          i := i + 1;
        }
      } else if Truthy(tiles) && Truthy(Prop(tiles, "url")) {
        var name := Or(Prop(tiles, "name"), JStr("Default Tile"));
        tileLayers := tileLayers.Put(PropertyKey(name), LayerOf(tiles));
      } else {
        tileLayers := tileLayers.Put("OpenStreetMap", OsmLayer());
      }
    }

    /** `initMap`: creates the map from the prepared layers at the
        component's position and zoom. */
    method InitMap()
      requires TilesUsable(tiles) && leafletMap.None? && marker.None?
      modifies this
      ensures Valid()
      ensures Current() == old(Current()).(leafletMap := Some(old(InitialMap(LatLng(lat, lng), zoom, tiles))))
    {
      var tileLayers := PrepareTileLayers();
      var layersArray := tileLayers.Values();
      var defaultLayer := if |layersArray| > 0 then Some(layersArray[0]) else None;
      var control := if |tileLayers.keys| > 1 then Some(tileLayers) else None;
      leafletMap := Some(LeafletMap(LatLng(lat, lng), zoom, [defaultLayer], control, []));
    }

    /** `init`: takes the position from the state when it has coordinates,
        creates the map there and, in that case, adds the marker at the
        map's centre, which rewrites the state with the same coordinates. */
    method Init()
      requires TilesUsable(tiles) && leafletMap.None? && marker.None?
      requires HasCoordinates(state) ==> !Nullish(customIcon)
      modifies this
      ensures Valid()
      ensures StoredPoint(state) == StoredPoint(old(state))
      ensures match StoredPoint(old(state))
        case Some(p) =>
          var icon := if Prop(old(customIcon), "iconUrl") != Undefined then Icon(old(customIcon))
                      else old(markerIcon);
          var m := Marker(p, icon, true);
          && Synced()
          && Current() == old(Current()).(
               lat := p.lat, lng := p.lng,
               state := PointState(p.lat, p.lng),
               markerIcon := icon,
               marker := Some(m),
               leafletMap := Some(old(InitialMap(p, zoom, tiles)).(markers := [m])))
        case None =>
          && Current() == old(Current()).(
               leafletMap := Some(InitialMap(LatLng(old(lat), old(lng)), old(zoom), old(tiles))))
    {
      if HasCoordinates(state) {
        var coords := Prop(state, "coordinates");
        lat := Element(coords, 0);
        lng := Element(coords, 1);
      }
      InitMap();
      if HasCoordinates(state) {
        AddMarker(leafletMap.value.center);
      }
    }
  }
}
