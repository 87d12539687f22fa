# Map field of filament-gis-tools, modelled in Dafny

The package adds a map form field to Filament. The field shows a Leaflet map.
The user places one draggable marker on it. The marker position is stored in
the field's state as `{type: 'Point', coordinates: [lat, lng]}`.

The model has two parts.

- **The PHP field** (`form_field.dfy`, module `FormField`) is a fluent builder.
  Class `MapField` keeps the field's nine settings. Each setter overwrites one
  setting and returns the same field. `draw()` and `locate()` merge the
  caller's options over a fixed table of defaults with PHP's `array_merge`.
  `ArrayMerge` models that merge in full: string keys overwrite in place, and
  integer keys are renumbered and appended. Lemmas prove what the merge gives
  for each key, that the defaults' key order is kept, and the renumbering.
- **The Alpine component** (`map_component.dfy`, module `MapComponent`) is the
  browser object. Class `Component` holds the fields `state`, `zoom`, `tiles`,
  `leafletMap`, `lat`, `lng`, `marker`, `customIcon` and `markerIcon`. Its
  methods follow `addMarker`, `removeMarker`, `updateStateWithCoordinates`,
  `updateMarkerAndMap`, `prepareTileLayers`, `initMap` and `init`.
  - Leaflet objects are plain records.
  - What Leaflet reports back enters as a parameter: the map centre, a
    dragged marker's position, the zoom after zooming.
  - `Valid()` says the component's marker is the only marker on the map.
  - `Synced()` says the marker sits at `(lat, lng)`.

Shared pieces:

- `dicts.dfy`: an insertion-ordered dictionary. It serves as both a PHP array
  and a plain JavaScript object.
- `js_values.dfy`: JavaScript values and the language rules the component
  relies on: truthiness, `||`, property reads, and turning a value into a
  property key.
  - Numbers are kept as their decimal text, because the component only copies
    them, tests them and uses them as keys.
- `wrappers.dfy`: `Option`.

## Model

| member | source | states |
|---|---|---|
| FormField.MapField.constructor | src/Forms/Components/Map.php:11-27 | A new field has no disabled marker, no height, zoom 10, coordinates hidden, empty tiles, marker icon, draw and locate settings, and no GeoJSON. |
| FormField.MapField.DisableMarker | src/Forms/Components/Map.php:33-38 | Sets disableMarker (default true), returns the same field, and leaves every other setting unchanged. |
| FormField.MapField.Zoom | src/Forms/Components/Map.php:43-48 | Sets the zoom (an int or null), returns the same field, and leaves every other setting unchanged. |
| FormField.MapField.Height | src/Forms/Components/Map.php:53-58 | Sets the height, returns the same field, and leaves every other setting unchanged. |
| FormField.MapField.ShowCoordinates | src/Forms/Components/Map.php:63-68 | Sets show_coordinates (default true), returns the same field, and leaves every other setting unchanged. |
| FormField.MapField.Tiles | src/Forms/Components/Map.php:73-78 | Sets the tiles array, returns the same field, and leaves every other setting unchanged. |
| FormField.MapField.MarkerIcon | src/Forms/Components/Map.php:83-88 | Sets the marker icon array, returns the same field, and leaves every other setting unchanged. |
| FormField.MapField.Draw | src/Forms/Components/Map.php:113-141 | Replaces the draw setting with the record built from this call's arguments (defaults true, 'geojson', no options), returns the same field, and leaves the rest unchanged. |
| FormField.MapField.Locate | src/Forms/Components/Map.php:155-174 | Replaces the locate setting with the record built from this call's arguments (defaults true, no options), returns the same field, and leaves the rest unchanged. |
| FormField.MapField.GeoJson | src/Forms/Components/Map.php:176-181 | Sets the GeoJSON string, returns the same field, and leaves every other setting unchanged. |
| FormField.MapField.GetDisableMarker | src/Forms/Components/Map.php:183-186 | Returns the stored disableMarker setting, the value the last setter or the constructor left; closure evaluation is left out. |
| FormField.MapField.GetZoom | src/Forms/Components/Map.php:188-191 | Returns the stored zoom, the value the last setter or the constructor left; closure evaluation is left out. |
| FormField.MapField.GetHeight | src/Forms/Components/Map.php:193-196 | Returns the stored height, the value the last setter or the constructor left; closure evaluation is left out. |
| FormField.MapField.GetShowCoordinates | src/Forms/Components/Map.php:198-201 | Returns the stored show_coordinates setting, the value the last setter or the constructor left; closure evaluation is left out. |
| FormField.MapField.GetTiles | src/Forms/Components/Map.php:203-206 | Returns the stored tiles array, the value the last setter or the constructor left; closure evaluation is left out. |
| FormField.MapField.GetMarkerIcon | src/Forms/Components/Map.php:208-211 | Returns the stored marker icon array, the value the last setter or the constructor left; closure evaluation is left out. |
| FormField.MapField.GetDraw | src/Forms/Components/Map.php:213-216 | Returns the stored draw setting, the value the last setter or the constructor left; closure evaluation is left out. |
| FormField.MapField.GetLocate | src/Forms/Components/Map.php:218-221 | Returns the stored locate setting, the value the last setter or the constructor left; closure evaluation is left out. |
| FormField.MapField.GetGeoJson | src/Forms/Components/Map.php:223-226 | Returns the stored GeoJSON string, the value the last setter or the constructor left; closure evaluation is left out. |
| FormField.MapField.GetState | src/Forms/Components/Map.php:228-237 | An array state is returned unchanged; any other state, and only such a state, goes to json_decode. |
| FormField.DrawTwice | src/Forms/Components/Map.php:134-138 | After two draw() calls, only the second call's setting is stored; nothing of the first survives. |
| FormField.ArrayMergeStringKey | src/Forms/Components/Map.php:137 | For every string key, array_merge takes the second array's value when it has the key, and otherwise the first array's value. |
| FormField.ArrayMergeIntKeys | src/Forms/Components/Map.php:137 | array_merge keeps the integer-keyed values of both arrays, the first array's before the second's, each in key order. The i-th of them is stored under index i, the integer keys are listed in that order, and there are no other integer keys. |
| FormField.ArrayMergeOrder | src/Forms/Components/Map.php:137 | The keys of a string-keyed first array come first in the result, in their order. |
| FormField.ArrayMergeEmptyRight | src/Forms/Components/Map.php:137 | Merging nothing over a string-keyed array gives that array back, in the same order. |
| FormField.MergeFromStringKey | src/Forms/Components/Map.php:137 | While entries are added one at a time, a string key holds the value of its last occurrence. |
| FormField.MergeFromIntKeys | src/Forms/Components/Map.php:137 | Each integer-keyed entry added stores its value under the next free index, after the integer-keyed values already there, so the integer keys stay 0, 1, 2, … in key order. |
| FormField.DrawSettingShape | src/Forms/Components/Map.php:134-138 | The draw setting has exactly the keys active, statePath and options, in that order, holding the arguments and the merged options. |
| FormField.DrawOptionsMerge | src/Forms/Components/Map.php:137 | A draw option the caller supplies overrides its default; an omitted one keeps its default; unknown keys are kept; the default keys come first. |
| FormField.DrawWithoutOptions | src/Forms/Components/Map.php:119-137 | draw() without options stores exactly the default option table. |
| FormField.DrawDefaultsContent | src/Forms/Components/Map.php:119-132 | The 12 draw defaults are lang 'en', position 'topleft', and true for drawPolyline, drawPolygon, cutPolygon, editMode and removalMode; every other default is false. |
| FormField.LocateSettingShape | src/Forms/Components/Map.php:168-171 | The locate setting has exactly the keys active and options, holding the argument and the merged options. |
| FormField.LocateOptionsMerge | src/Forms/Components/Map.php:170 | A locate option the caller supplies overrides its default; an omitted one keeps its default; unknown keys are kept. |
| FormField.LocateWithoutOptions | src/Forms/Components/Map.php:157-170 | locate() without options stores exactly the default option table. |
| FormField.LocateDefaultsContent | src/Forms/Components/Map.php:157-166 | The 6 locate defaults: position 'topright', flyTo, enableHighAccuracy and watch true, timeout 10000, maximumAge 0. |
| JsValues.Or | resources/js/components/map-component.js:24-25 | JavaScript's logical or is one of its operands, and it is truthy exactly when either operand is. |
| MapComponent.DefaultIconContent | resources/js/components/map-component.js:12-20 | The bundled icon has exactly seven options: the package's marker image and shadow, icon size 25 by 41, shadow size 41 by 41, icon anchor (12, 41), shadow anchor (4, 41) and popup anchor (-3, -41). |
| MapComponent.InitialZoom | resources/js/components/map-component.js:24 | The initial zoom is always truthy: the configured zoom when that is truthy, else 10. |
| MapComponent.ZeroZoomBecomesTen | resources/js/components/map-component.js:24 | A configured zoom of 0, or none at all, becomes 10. |
| MapComponent.Component.constructor | resources/js/components/map-component.js:9-31 | A new component keeps the given state and custom icon, starts at 41.8902/12.4923 with the configured zoom or else 10, the tiles or else null, no map, no marker and the bundled icon. |
| MapComponent.PointState | resources/js/components/map-component.js:62 | The state written is an object with exactly the keys type ('Point') and coordinates ([lat, lng], latitude first). |
| MapComponent.StoredPoint | resources/js/components/map-component.js:126-128 | init reads a position from the state exactly when `state && state.coordinates` holds. |
| MapComponent.PointStateRoundTrip | resources/js/components/map-component.js:126-128 | The position init reads from a state written by updateStateWithCoordinates is the position written. |
| MapComponent.Component.UpdateStateWithCoordinates | resources/js/components/map-component.js:59-63 | Sets lat, lng and the state to the given position and changes nothing else; the state reads back as that position. |
| MapComponent.Component.AddMarker | resources/js/components/map-component.js:33-50 | Any earlier marker is taken off the map. The map then holds exactly one new draggable marker at the map centre. Its icon is the custom one when that has an iconUrl, else the current one. lat, lng and the state now hold the centre. |
| MapComponent.WithoutMarker | resources/js/components/map-component.js:53-55 | Removing a marker leaves every other marker on the map; removing the only marker empties it. |
| MapComponent.Component.RemoveMarker | resources/js/components/map-component.js:52-57 | Afterwards there is no marker and none on the map. Without a marker, nothing changes. The state, lat and lng are never touched. |
| MapComponent.Component.UpdateMarkerAndMap | resources/js/components/map-component.js:74-80 | Moves only the marker, without panning and without touching lat, lng or the state. Moving it to where it already is changes nothing. |
| MapComponent.Component.MarkerDragEnd | resources/js/components/map-component.js:49 | After a drag, the marker, lat, lng and the state all hold the drop position. |
| MapComponent.Component.OnZoomEnd | resources/js/components/map-component.js:69-71 | After a zoom, the component's zoom is the map's zoom and nothing else changes. |
| MapComponent.Component.PrepareTileLayers | resources/js/components/map-component.js:83-99 | The dictionary built one tile at a time equals the tile layers the configuration defines. |
| MapComponent.TileLayersOf | resources/js/components/map-component.js:86-89 | An empty tile array gives an empty dictionary. |
| MapComponent.LayersKeys | resources/js/components/map-component.js:86-89 | With a tile array, the keys are exactly the tile names, each once. |
| MapComponent.LastTileWins | resources/js/components/map-component.js:86-89 | A later tile with the same name overwrites an earlier one, so a name holds the layer of the last tile carrying it. |
| MapComponent.FirstKeyIsFirstName | resources/js/components/map-component.js:86-89 | With a non-empty tile array, the first key is the first tile's name. |
| MapComponent.SingleTileLayers | resources/js/components/map-component.js:90-91 | A single tile object with a url gives exactly one entry, keyed by its name or 'Default Tile'. |
| MapComponent.FallbackLayers | resources/js/components/map-component.js:92-97 | Any other configuration gives exactly one 'OpenStreetMap' entry, with maxZoom 19. |
| MapComponent.DefaultLayer | resources/js/components/map-component.js:105-106 | The default layer is the first prepared layer, or null exactly when there is none. |
| MapComponent.InitialMap | resources/js/components/map-component.js:104-118 | The map starts at the component's position and zoom, shows only the default layer, and has no markers. It gets a layer control over all layers exactly when there is more than one key. |
| MapComponent.DefaultLayerOfArray | resources/js/components/map-component.js:104-106 | With a tile array, the default layer belongs to the last tile that shares the first tile's name. |
| MapComponent.EmptyTileArray | resources/js/components/map-component.js:104-118 | An empty tile array gives a null default layer and no control. |
| MapComponent.ControlIffTwoNames | resources/js/components/map-component.js:116-118 | With a tile array, the layer control is added exactly when two tiles have different names. |
| MapComponent.NoTilesNoControl | resources/js/components/map-component.js:92-118 | Without a tile array or a tile object with a url, the map has the single OpenStreetMap layer and no control. |
| MapComponent.Component.InitMap | resources/js/components/map-component.js:101-121 | Creates the initial map from the prepared layers at the component's position and zoom, and changes nothing else. |
| MapComponent.Component.Init | resources/js/components/map-component.js:123-139 | If the state carries coordinates, lat and lng come from coordinates[0] and [1], and the map is created there with one draggable marker at that point. Its icon, which also becomes markerIcon, is the custom one when that has an iconUrl, else the current markerIcon (the bundled icon on a new component). The state is rewritten with the same point. Zoom, tiles and the custom icon are unchanged. Otherwise the defaults stay, and the map is created with no marker and the state untouched. |

## Left out

- Closures: every setting may also be a `Closure`, which the getters pass
  through Filament's `evaluate`. The model stores plain values, and its getters
  return them.
- `FormField.MapField.GetState`: the non-array branch hands the state to PHP's
  `json_decode`, which is not modelled. The result only records that input.
  The framework's own `parent::getState()` becomes the parameter `stored`.
- PHP's normalisation of integer-like string keys ("5" becomes 5) happens when
  an array is written. Model arrays carry their keys already normalised.
- JavaScript lists integer-like property names first, in ascending order. The
  dictionary of tile layers keeps plain insertion order, so a tile named "1"
  after a tile named "b" is not moved to the front. `__proto__` as a tile name
  is not special either.
- Leaflet's internals: `L.map`, `L.marker`, `L.tileLayer`, `L.icon`,
  `L.control.layers`, `setLatLng`, `getCenter`, `getLatLng` and `getZoom` are
  records and parameters.
  - Leaflet converts coordinates to numbers and rejects non-numeric ones. The
    model copies them unchanged.
  - `MapComponent.Component.Init` reads the new map's centre back as the
    position it was created with.
  - What Leaflet does with the `null` layer that an empty tile array produces
    is not modelled.
- Alpine's reactivity: the `$watch` on `lat` and `lng`, and the subscriptions
  to `dragend` and `zoomend`.
  - The handlers are separate methods (`UpdateMarkerAndMap`, `MarkerDragEnd`,
    `OnZoomEnd`) that a caller invokes.
  - The watchers are not triggered automatically, and their re-entrancy is not
    modelled.
  - `UpdateMarkerAndMap` proves that the watcher's call after a position change
    leaves the marker where it already is.
- TypeErrors are preconditions rather than modelled errors. These are reads of
  a property of `null` or `undefined`:
  - the marker in `updateMarkerAndMap` when there is none (a coordinate typed
    before a marker exists);
  - the map in `addMarker` before `initMap`;
  - `customIcon.iconUrl` when no custom icon was given;
  - `tile.name` of a null tile.
- `MapComponent.Component.Init`: it requires a fresh component (no map and no
  marker yet), as Alpine calls it once after construction.
- The Blade view `map.blade.php` is templating and is not part of this model.
  This includes:
  - its fallbacks (height 250, zoom 13, `'{}'` for empty settings);
  - its passing of the entangled state under the name `location`, while the
    component reads `state`.
  - The component is modelled as written, taking `state` as a parameter.
- `GisToolsServiceProvider.php` (package registration, assets and the install
  command) and the `GisTools` facade are framework plumbing and are not part of
  this model. So is the field's `$view` property.
- JavaScript numbers are only copied, used as conditions and used as keys,
  so they are kept as their decimal text. No floating-point arithmetic is
  modelled.
- `JsValues.Truthy`: a number's text is taken to be the canonical `String(n)`
  text, which nothing in the model enforces. A non-canonical text such as
  "0.0" or "00" counts as truthy, although the number it spells is 0 and
  falsy; `MapComponent.InitialZoom` would then keep it instead of using 10.
- `FormField.Value` has no floats, objects or closures, so caller options
  such as `['opacity' => 0.5]` cannot be written down. `array_merge` does not
  look at the values, so the merge rules proved here hold for those values
  too.
