/**
 * `draw()` (script.js:42-177) as one pipeline: normalise the fields, solve
 * the hydrostatics, format the readouts and lay out the diagram. Instead of
 * writing to the page and painting the canvas it returns what it would
 * have written and the coordinates it would have painted at.
 */
module Draw {
  import opened JsMath
  import opened Inputs
  import opened Physics
  import opened Format
  import opened Layout

  datatype Scene = Scene(
    params: Params,
    physics: Hydrostatics,
    readouts: Readouts,
    frame: Frame,
    gridYs: seq<real>,
    rows: seq<Row>,
    arrow: Arrow)

  /**
   * One redraw for the parsed fields `raw` on a canvas of `width` × `height`
   * device pixels at pixel ratio `dpr`.
   */
  method Draw(raw: RawInputs, width: nat, height: nat, dpr: real) returns (scene: Scene)
    requires dpr > 0.0
    ensures scene.params == Normalise(raw)
    ensures scene.physics == Solve(scene.params)
    ensures scene.readouts == ReadoutsOf(scene.physics.baseP, scene.physics.force, scene.physics.yp)
    ensures scene.frame == FrameOf(width, height, dpr)
    ensures scene.arrow == ArrowOf(scene.frame, scene.params)
    ensures |scene.gridYs| == GridCount(scene.params.steps)
    ensures forall i :: 0 <= i < |scene.gridYs| ==>
              scene.gridYs[i] == GridY(scene.frame, |scene.gridYs|, i)
    ensures |scene.rows| == if scene.params.steps > 0 then scene.params.steps + 1 else 0
    ensures forall i :: 0 <= i < |scene.rows| ==> scene.rows[i] == RowAt(scene.frame, scene.params, i)
    ensures forall i :: 0 <= i < |scene.rows| ==>
              scene.rows[i].barX + scene.rows[i].barWidth < scene.frame.wallX
    ensures scene.arrow.startX > scene.frame.wallX + scene.frame.wallWidth
    ensures scene.arrow.length <= scene.frame.maxVis / 2.0
    ensures |scene.rows| > 0 ==> scene.rows[|scene.rows| - 1].pressure == scene.physics.baseP
  {
    var params := Normalise(raw);
    var physics := Solve(params);
    var readouts := ReadoutsOf(physics.baseP, physics.force, physics.yp);
    var frame := FrameOf(width, height, dpr);
    var gridYs := GridLines(frame, params.steps);
    var rows := BarRows(frame, params);
    if params.steps > 0 {
      LastRow(frame, params);
    }
    scene := Scene(params, physics, readouts, frame, gridYs, rows, ArrowOf(frame, params));
  }

  /**
   * The worked example: ρ = 1000 kg/m³, g = 9.81 m/s², h = 2 m, A = 1 m²
   * gives hc = 1 m, Pbase = 120945 Pa, F = 9810 N and yp = 4/3 m; over
   * exact reals the readouts show 120.95 kPa (a tie, rounded away from
   * zero), 9.81 kN and 1.33 m.
   */
  lemma WorkedExample()
    ensures var s := Solve(Params(1000.0, 9.81, 2.0, 1.0, 30));
            && s.hc == 1.0 && s.baseP == 120945.0 && s.force == 9810.0 && s.yp == 4.0 / 3.0
            && ReadoutsOf(s.baseP, s.force, s.yp)
               == Readouts(Readout(Fixed2(120.95), " kPa"), Readout(Fixed2(9.81), " kN"),
                           Readout(Plain(1.33), " m"))
  {
    var s := Solve(Params(1000.0, 9.81, 2.0, 1.0, 30));
    assert Round(120945.0) == 120945;
    assert Round(9810.0) == 9810;
    assert Round(4.0 / 3.0 * 100.0) == 133;
    assert Round(120.945 * 100.0) == 12095;
    assert Round(9.81 * 100.0) == 981;
    assert " k" + "Pa" == " kPa" && " k" + "N" == " kN" && " " + "m" == " m";
  }
}
