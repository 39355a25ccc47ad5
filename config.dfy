/**
 * The static configuration table `CONFIG` of js/config.js.
 * Lengths of buildings and spacings are metres, everything else is canvas pixels.
 */
module Config {
  import opened Common

  const CANVAS_WIDTH: real := 1200.0
  const CANVAS_HEIGHT: real := 850.0

  /** Pixels per metre. */
  const SCALE: real := 4.0

  /** One grid cell in millimetres. */
  const GRID_UNIT: real := 910.0

  /**
   * `GRID.SIZE`, a getter that multiplies by the literal 4 instead of reading SCALE.
   * It agrees with UNIT/1000*SCALE only because SCALE happens to be 4.
   */
  function GridSize(): (g: real)
    ensures g == 3.64
    ensures g == GRID_UNIT / 1000.0 * SCALE
  {
    GRID_UNIT / 1000.0 * 4.0
  }

  /** A catalog entry of `BUILDING_TYPES`. */
  datatype BuildingTypeDef = BuildingTypeDef(
    typeId: string, name: string, width: real, height: real,
    color: string, hasEntrance: bool, description: string)

  const TYPE_A := BuildingTypeDef("A", "PLAN-①", 6.37, 8.19, "#3498db", true, "戸建住宅A（テラス・ポーチ付き）")
  const TYPE_B := BuildingTypeDef("B", "PLAN-②", 5.46, 7.28, "#2ecc71", true, "戸建住宅B（テラス・ポーチ付き）")
  const TYPE_C := BuildingTypeDef("C", "建物C", 42.0, 43.0, "#e74c3c", false, "サービス付き高齢者向け住宅")
  const TYPE_D := BuildingTypeDef("D", "建物D", 19.5, 34.2, "#f39c12", false, "集合住宅")

  /** `ENTRANCE_MARKER`. */
  const MARKER_WIDTH: real := 14.0
  const MARKER_HEIGHT: real := 4.0
  const MARKER_COLOR: string := "#e74c3c"
  const MARKER_OFFSET_FROM_BOTTOM: real := 4.0

  /** `DEFAULT_SPACING`, metres. */
  const DEFAULT_SHORT_SIDE: real := 1.2
  const DEFAULT_LONG_SIDE: real := 1.2

  /** `AREA_SELECTION` minimum rectangle, pixels. */
  const MIN_WIDTH: real := 20.0
  const MIN_HEIGHT: real := 20.0

  /** `BUILDING_STYLE` and `PDF_BACKGROUND`. */
  const BUILDING_STROKE_COLOR: string := "#2c3e50"
  const BUILDING_STROKE_WIDTH: real := 1.0
  const BUILDING_OPACITY: real := 0.7
  const PDF_BACKGROUND_OPACITY: real := 0.5

  /** The keys of `BUILDING_TYPES`. */
  predicate IsTypeKey(key: string) {
    key == "A" || key == "B" || key == "C" || key == "D"
  }

  /** `CONFIG.BUILDING_TYPES[key]`: undefined for every other key. */
  function LookupType(key: string): (r: Option<BuildingTypeDef>)
    ensures r.Some? <==> IsTypeKey(key)
    ensures r.Some? ==> r.value.typeId == key
    ensures r.Some? ==> 0.0 < r.value.width <= r.value.height
    ensures r.Some? ==> (r.value.hasEntrance <==> key == "A" || key == "B")
  {
    if key == "A" then Some(TYPE_A)
    else if key == "B" then Some(TYPE_B)
    else if key == "C" then Some(TYPE_C)
    else if key == "D" then Some(TYPE_D)
    else None
  }

  /** Type C is drawn in the very colour by which the entrance marker is recognised. */
  lemma TypeCColorIsMarkerColor()
    ensures LookupType("C").Some? && LookupType("C").value.color == MARKER_COLOR
    ensures forall k :: IsTypeKey(k) && k != "C" ==> LookupType(k).value.color != MARKER_COLOR
  {
  }
}
