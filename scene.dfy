/**
 * The scene driver's bookkeeping: the vector of models built once at
 * start-up, the per-frame loop that draws each model with its texture, and
 * the loop that deletes them at exit. Device calls (upload, draw, delete)
 * are not modelled; each is recorded as a value.
 */
module Scene {
  import opened Meshes

  /** A model as its constructor receives it: scale, translation, vertex matrix columns, indices. */
  datatype Model = Model(scale: Vec3, translation: Vec3, vertices: seq<Column>, indices: seq<nat>)

  /** One `Draw` call: the model drawn and the texture id passed to it. */
  datatype DrawCall = DrawCall(model: Model, textureId: nat)

  /** A well-formed model: whole triangles, every index names a column that was assigned. */
  predicate WellFormed(m: Model) {
    WholeTriangles(m.indices) && ReferencedColumnsAssigned(m.vertices, m.indices)
  }

  function PyramidModel(): Model {
    Model(Vec3(1.0, 1.0, 1.0), Vec3(-3.0, -1.0, -15.0), FilledAll(PYRAMID_VERTICES), PYRAMID_INDICES)
  }

  /** The cube as the block writes build it. */
  function CubeModelAsWritten(): Model {
    Model(Vec3(1.0, 1.0, 1.0), Vec3(1.0, -1.0, -15.0), CubeColumnsAsWritten(), CUBE_INDICES)
  }

  /** The cube with vertex i in column i. */
  function CubeModel(): Model {
    Model(Vec3(1.0, 1.0, 1.0), Vec3(1.0, -1.0, -15.0), FilledAll(CUBE_VERTICES), CUBE_INDICES)
  }

  /** The pyramid and the corrected cube reference only assigned columns; the cube as written references unassigned ones. */
  lemma ModelsWellFormed()
    ensures WellFormed(PyramidModel()) && WellFormed(CubeModel())
    ensures !WellFormed(CubeModelAsWritten())
  {
    PyramidIndicesWellFormed();
    PyramidColumnsAssigned();
    CubeIndicesWellFormed();
    CubeColumnsAssigned();
    CubeAsWrittenReadsUnassignedColumn();
  }

  /** The vector of models to draw. */
  class ModelVector {
    var items: seq<Model>

    constructor ()
      ensures items == []
    {
      items := [];
    }

    method PushBack(m: Model)
      modifies this
      ensures items == old(items) + [m]
    {
      items := items + [m];
    }
  }

  /**
   * Builds the pyramid and the cube and appends them to `models`, pyramid
   * first. The cube's matrix is the one its block writes produce.
   */
  method ConstructModels(models: ModelVector)
    modifies models
    ensures models.items == old(models.items) + [PyramidModel(), CubeModelAsWritten()]
    ensures |models.items| == |old(models.items)| + 2
  {
    var vertices := PyramidMatrix();
    var pyramid := Model(Vec3(1.0, 1.0, 1.0), Vec3(-3.0, -1.0, -15.0), vertices, PYRAMID_INDICES);
    models.PushBack(pyramid);
    var vertices2 := CubeMatrixAsWritten();
    var cube := Model(Vec3(1.0, 1.0, 1.0), Vec3(1.0, -1.0, -15.0), vertices2, CUBE_INDICES);
    models.PushBack(cube);
  }

  /** ConstructModels with the cube's vertices 4-7 written to columns 4-7: both models are well-formed. */
  method ConstructModelsFixed(models: ModelVector)
    modifies models
    ensures models.items == old(models.items) + [PyramidModel(), CubeModel()]
    ensures forall i :: |old(models.items)| <= i < |models.items| ==> WellFormed(models.items[i])
  {
    var vertices := PyramidMatrix();
    var pyramid := Model(Vec3(1.0, 1.0, 1.0), Vec3(-3.0, -1.0, -15.0), vertices, PYRAMID_INDICES);
    models.PushBack(pyramid);
    var vertices2 := CubeMatrix();
    var cube := Model(Vec3(1.0, 1.0, 1.0), Vec3(1.0, -1.0, -15.0), vertices2, CUBE_INDICES);
    models.PushBack(cube);
    ModelsWellFormed();
  }

  /**
   * Draws every model of the vector, in order, model i with texture
   * `textureIds[i]`. The texture array is indexed unchecked, so it must have
   * an entry for every model.
   */
  method RenderScene(models: ModelVector, textureIds: array<nat>) returns (draws: seq<DrawCall>)
    requires |models.items| <= textureIds.Length
    ensures |draws| == |models.items|
    ensures forall i :: 0 <= i < |draws| ==> draws[i] == DrawCall(models.items[i], textureIds[i])
  {
    draws := [];
    for i := 0 to |models.items|
      invariant |draws| == i
      invariant forall k :: 0 <= k < i ==> draws[k] == DrawCall(models.items[k], textureIds[k])
    {
      draws := draws + [DrawCall(models.items[i], textureIds[i])];
    }
  }

  /**
   * Deletes every model of the vector once, in order, and leaves the vector
   * itself as it was (it then holds deleted models).
   */
  method DeleteModels(models: ModelVector) returns (deleted: seq<Model>)
    ensures deleted == models.items
  {
    deleted := [];
    for i := 0 to |models.items|
      invariant deleted == models.items[..i]
    {
      deleted := deleted + [models.items[i]];
    }
  }

  /**
   * The render loop: `frames` iterations of RenderScene, the count standing
   * for the iterations until the window is asked to close. With two models,
   * draw k is model k mod 2 with its texture.
   */
  method RenderFrames(models: ModelVector, textureIds: array<nat>, frames: nat) returns (draws: seq<DrawCall>)
    requires |models.items| == 2 && textureIds.Length == 2
    ensures |draws| == 2 * frames
    ensures forall k :: 0 <= k < |draws| ==> draws[k] == DrawCall(models.items[k % 2], textureIds[k % 2])
  {
    draws := [];
    var f := 0;
    while f < frames
      invariant 0 <= f <= frames && |draws| == 2 * f
      invariant forall k :: 0 <= k < |draws| ==> draws[k] == DrawCall(models.items[k % 2], textureIds[k % 2])
    {
      var frame := RenderScene(models, textureIds);
      assert (2 * f) % 2 == 0 && (2 * f + 1) % 2 == 1;
      draws := draws + frame;
      f := f + 1;
    }
  }

  /**
   * Draws that alternate over a two-model vector alternate between its two
   * models, and each draw is well-formed exactly when its model is.
   */
  lemma AlternatingDraws(draws: seq<DrawCall>, items: seq<Model>, ids: seq<nat>)
    requires |items| == 2 && |ids| == 2
    requires forall k :: 0 <= k < |draws| ==> draws[k] == DrawCall(items[k % 2], ids[k % 2])
    ensures forall k :: 0 <= k < |draws| ==>
              draws[k] == if k % 2 == 0 then DrawCall(items[0], ids[0]) else DrawCall(items[1], ids[1])
    ensures forall k :: 0 <= k < |draws| ==>
              (WellFormed(draws[k].model) <==> if k % 2 == 0 then WellFormed(items[0]) else WellFormed(items[1]))
  {
    forall k | 0 <= k < |draws|
      ensures draws[k] == if k % 2 == 0 then DrawCall(items[0], ids[0]) else DrawCall(items[1], ids[1])
    {
      assert k % 2 == 0 || k % 2 == 1;
    }
  }

  /**
   * The driver from model construction to clean-up, as `main` has it: build
   * the models, take the two texture ids, run the render loop, delete the
   * models. Every frame draws the pyramid with the first texture and then
   * the cube as its block writes build it with the second; the two-entry
   * texture array suffices because exactly two models are built. Only the
   * pyramid draws are of a well-formed model.
   */
  method SceneLifecycle(textureId0: nat, textureId1: nat, frames: nat)
    returns (draws: seq<DrawCall>, deleted: seq<Model>)
    ensures |draws| == 2 * frames
    ensures forall k :: 0 <= k < |draws| ==>
              draws[k] == if k % 2 == 0 then DrawCall(PyramidModel(), textureId0)
                          else DrawCall(CubeModelAsWritten(), textureId1)
    ensures forall k :: 0 <= k < |draws| ==> (WellFormed(draws[k].model) <==> k % 2 == 0)
    ensures deleted == [PyramidModel(), CubeModelAsWritten()]
  {
    var models := new ModelVector();
    ConstructModels(models);
    var textureIds := new nat[2];
    textureIds[0], textureIds[1] := textureId0, textureId1;
    draws := RenderFrames(models, textureIds, frames);
    assert textureIds[..] == [textureId0, textureId1];
    AlternatingDraws(draws, models.items, textureIds[..]);
    ModelsWellFormed();
    deleted := DeleteModels(models);
  }

  /** The same driver over the corrected construction: every drawn model is well-formed. */
  method SceneLifecycleFixed(textureId0: nat, textureId1: nat, frames: nat)
    returns (draws: seq<DrawCall>, deleted: seq<Model>)
    ensures |draws| == 2 * frames
    ensures forall k :: 0 <= k < |draws| ==>
              draws[k] == if k % 2 == 0 then DrawCall(PyramidModel(), textureId0)
                          else DrawCall(CubeModel(), textureId1)
    ensures forall k :: 0 <= k < |draws| ==> WellFormed(draws[k].model)
    ensures deleted == [PyramidModel(), CubeModel()]
  {
    var models := new ModelVector();
    ConstructModelsFixed(models);
    var textureIds := new nat[2];
    textureIds[0], textureIds[1] := textureId0, textureId1;
    draws := RenderFrames(models, textureIds, frames);
    assert textureIds[..] == [textureId0, textureId1];
    AlternatingDraws(draws, models.items, textureIds[..]);
    ModelsWellFormed();
    deleted := DeleteModels(models);
  }
}
