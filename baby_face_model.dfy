/** BabyFaceModel: the arithmetic that keeps the eyes of an imported face
    model within their limits, the eye blend-shape writes, and the search for
    eye and pupil bones by name. Directions arrive already normalised into the
    face's or the eye's local space; the vector maths that produces them is
    not modelled. */
module BabyFace {
  import opened Options
  import opened Numeric
  import opened Text

  /** ClampAngle: an Euler angle above 180 degrees is read as the negative
      angle it stands for, and the result is clamped into [min, max]. */
  function ClampAngle(angle: real, min: real, max: real): (r: real)
    ensures min <= max ==> min <= r <= max
    ensures angle <= 180.0 && min <= angle <= max ==> r == angle
    ensures angle > 180.0 && min <= angle - 360.0 <= max ==> r == angle - 360.0
  {
    var a := if angle > 180.0 then angle - 360.0 else angle;
    Clamp(a, min, max)
  }

  /** The eyes turn at most maxEyeRotation either way: an angle of 350 degrees
      is the 10-degree turn the other way, and 190 degrees is clamped to the
      lower limit. */
  lemma ClampAngleWrapsAround(maxEyeRotation: real)
    requires 10.0 <= maxEyeRotation < 170.0
    ensures ClampAngle(350.0, -maxEyeRotation, maxEyeRotation) == -10.0
    ensures ClampAngle(190.0, -maxEyeRotation, maxEyeRotation) == -maxEyeRotation
    ensures ClampAngle(0.0, -maxEyeRotation, maxEyeRotation) == 0.0
  {
  }

  /** The blend-shape weight one eye axis is steered towards, for a component
      d of the local gaze direction: clamp(d·50, −50, 50) + 50. */
  function EyeTarget(d: real): (r: real)
    ensures 0.0 <= r <= 100.0
    ensures d <= -1.0 ==> r == 0.0
    ensures d >= 1.0 ==> r == 100.0
    ensures -1.0 <= d <= 1.0 ==> r - 50.0 == d * 50.0
  {
    Clamp(d * 50.0, -50.0, 50.0) + 50.0
  }

  /** The target grows with the gaze component. */
  lemma EyeTargetMonotone(d: real, e: real)
    requires d <= e
    ensures EyeTarget(d) <= EyeTarget(e)
  {
  }

  /** The four blend-shape indices; a negative index means "not set up". */
  datatype EyeBlendShapes = EyeBlendShapes(leftX: int, leftY: int, rightX: int, rightY: int)

  const UnassignedBlendShapes := EyeBlendShapes(-1, -1, -1, -1)

  /** GetBlendShapeWeight: a weight never written reads as 0. */
  function Weight(weights: map<int, real>, index: int): real
  {
    if index in weights then weights[index] else 0.0
  }

  /** One guarded write: a non-negative index moves its weight towards the
      target by the smoothing step t; a negative index writes nothing. */
  function SteerWeight(weights: map<int, real>, index: int, target: real, t: real): map<int, real>
  {
    if index >= 0 then weights[index := Lerp(Weight(weights, index), target, t)] else weights
  }

  /** UpdateEyesWithBlendShapes on the renderer's weights: left X, left Y,
      right X, right Y in that order, both eyes steered towards the same
      targets. The smoothing step t is Time.deltaTime · gazeFollowSmoothing. */
  function EyeBlendStep(weights: map<int, real>, ix: EyeBlendShapes, dx: real, dy: real, t: real): map<int, real>
  {
    var w1 := SteerWeight(weights, ix.leftX, EyeTarget(dx), t);
    var w2 := SteerWeight(w1, ix.leftY, EyeTarget(dy), t);
    var w3 := SteerWeight(w2, ix.rightX, EyeTarget(dx), t);
    SteerWeight(w3, ix.rightY, EyeTarget(dy), t)
  }

  predicate Steered(ix: EyeBlendShapes, k: int)
  {
    k == ix.leftX || k == ix.leftY || k == ix.rightX || k == ix.rightY
  }

  predicate WeightsInRange(weights: map<int, real>)
  {
    forall k :: k in weights ==> 0.0 <= weights[k] <= 100.0
  }

  lemma SteerWeightKeepsRange(weights: map<int, real>, index: int, target: real, t: real)
    requires WeightsInRange(weights) && 0.0 <= target <= 100.0
    ensures WeightsInRange(SteerWeight(weights, index, target, t))
  {
  }

  /** The step writes only the configured, non-negative indices: every other
      weight, and every weight under a negative index, is left as it was. */
  lemma EyeBlendStepFrame(weights: map<int, real>, ix: EyeBlendShapes, dx: real, dy: real, t: real, k: int)
    requires k < 0 || !Steered(ix, k)
    ensures var w := EyeBlendStep(weights, ix, dx, dy, t);
      (k in w <==> k in weights) && (k in weights ==> w[k] == weights[k])
  {
  }

  /** Weights that start in the blend-shape range [0, 100] stay there, and
      every written index is non-negative. */
  lemma {:induction false} EyeBlendStepInRange(weights: map<int, real>, ix: EyeBlendShapes, dx: real, dy: real, t: real)
    requires WeightsInRange(weights)
    ensures WeightsInRange(EyeBlendStep(weights, ix, dx, dy, t))
    ensures forall k :: k in EyeBlendStep(weights, ix, dx, dy, t) && k !in weights ==> k >= 0 && Steered(ix, k)
  {
    var w1 := SteerWeight(weights, ix.leftX, EyeTarget(dx), t);
    SteerWeightKeepsRange(weights, ix.leftX, EyeTarget(dx), t);
    var w2 := SteerWeight(w1, ix.leftY, EyeTarget(dy), t);
    SteerWeightKeepsRange(w1, ix.leftY, EyeTarget(dy), t);
    var w3 := SteerWeight(w2, ix.rightX, EyeTarget(dx), t);
    SteerWeightKeepsRange(w2, ix.rightX, EyeTarget(dx), t);
    SteerWeightKeepsRange(w3, ix.rightY, EyeTarget(dy), t);
  }

  /** With a full smoothing step (t ≥ 1) and distinct indices, each configured
      weight lands on its target, and the two eyes agree on each axis. */
  lemma EyesAgreeOnFullStep(weights: map<int, real>, ix: EyeBlendShapes, dx: real, dy: real, t: real)
    requires t >= 1.0
    requires ix.leftX >= 0 && ix.leftY >= 0 && ix.rightX >= 0 && ix.rightY >= 0
    requires ix.leftX != ix.leftY && ix.leftX != ix.rightY && ix.rightX != ix.leftY && ix.rightX != ix.rightY
    ensures var w := EyeBlendStep(weights, ix, dx, dy, t);
      w[ix.leftX] == w[ix.rightX] == EyeTarget(dx) && w[ix.leftY] == w[ix.rightY] == EyeTarget(dy)
  {
  }

  datatype Vector3 = Vector3(x: real, y: real, z: real)

  /** CalculatePupilOffset, given the gaze direction in the eye's local space:
      x and y clamped to ±maxPupilOffset, z flattened onto the eye surface. */
  function PupilOffset(localDirection: Vector3, maxPupilOffset: real): (r: Vector3)
    ensures r.z == 0.0
    ensures maxPupilOffset >= 0.0 ==> Abs(r.x) <= maxPupilOffset && Abs(r.y) <= maxPupilOffset
    ensures Abs(localDirection.x) <= maxPupilOffset ==> r.x == localDirection.x
    ensures Abs(localDirection.y) <= maxPupilOffset ==> r.y == localDirection.y
  {
    Vector3(Clamp(localDirection.x, -maxPupilOffset, maxPupilOffset),
            Clamp(localDirection.y, -maxPupilOffset, maxPupilOffset),
            0.0)
  }

  /** The face's renderer as far as GetBlendShapeCount sees it: possibly no
      renderer, possibly no shared mesh, otherwise the mesh's count. */
  datatype Renderer = Renderer(sharedMeshBlendShapes: Option<nat>)

  function GetBlendShapeCount(renderer: Option<Renderer>): (r: nat)
    ensures (renderer.None? || renderer.value.sharedMeshBlendShapes.None?) ==> r == 0
    ensures renderer.Some? && renderer.value.sharedMeshBlendShapes.Some?
            ==> r == renderer.value.sharedMeshBlendShapes.value
  {
    match renderer
    case None => 0
    case Some(rd) => if rd.sharedMeshBlendShapes.Some? then rd.sharedMeshBlendShapes.value else 0
  }

  /** What UpdateEyeTracking does in a frame. */
  datatype EyeAction = NoEyeUpdate | SteerBlendShapes | TurnEyeBones

  /** The frame's guards: gaze following on, tracker connected, a valid
      sample, a camera, a gaze point other than the origin; then blend shapes
      when enabled and a renderer exists, else bones when both eye bones exist. */
  function EyeTrackingAction(followGaze: bool, trackerConnected: bool, sampleValid: bool,
                             hasCamera: bool, gazePointIsOrigin: bool, useBlendShapesForEyes: bool,
                             hasRenderer: bool, hasLeftEye: bool, hasRightEye: bool): (r: EyeAction)
    ensures r != NoEyeUpdate ==> followGaze && trackerConnected && sampleValid && hasCamera && !gazePointIsOrigin
    ensures r == SteerBlendShapes <==> (followGaze && trackerConnected && sampleValid && hasCamera
                                        && !gazePointIsOrigin && useBlendShapesForEyes && hasRenderer)
    ensures r == TurnEyeBones <==> (followGaze && trackerConnected && sampleValid && hasCamera && !gazePointIsOrigin
                                    && !(useBlendShapesForEyes && hasRenderer) && hasLeftEye && hasRightEye)
  {
    if !(followGaze && trackerConnected) then NoEyeUpdate
    else if !sampleValid || !hasCamera then NoEyeUpdate
    else if gazePointIsOrigin then NoEyeUpdate
    else if useBlendShapesForEyes && hasRenderer then SteerBlendShapes
    else if hasLeftEye && hasRightEye then TurnEyeBones
    else NoEyeUpdate
  }

  /** The role a child transform's name gives it in AutoFindEyeBones. */
  datatype BoneRole = LeftEye | RightEye | LeftPupil | RightPupil | NoRole

  /** The first matching rule on the lower-cased name. */
  function Classify(name: string): BoneRole
  {
    var n := ToLower(name);
    if Contains(n, "eye") && Contains(n, "left") && !Contains(n, "pupil") then LeftEye
    else if Contains(n, "eye") && Contains(n, "right") && !Contains(n, "pupil") then RightEye
    else if Contains(n, "pupil") && Contains(n, "left") then LeftPupil
    else if Contains(n, "pupil") && Contains(n, "right") then RightPupil
    else NoRole
  }

  /** Each role in terms of the words the lower-cased name contains: a name
      with "pupil" in it is never an eye bone, "left" wins over "right", and a
      name is case-insensitive. */
  lemma ClassifyRules(name: string)
    ensures var n := ToLower(name);
      var eye := Contains(n, "eye");
      var pupil := Contains(n, "pupil");
      var left := Contains(n, "left");
      var right := Contains(n, "right");
      (Classify(name) == LeftEye <==> eye && left && !pupil)
      && (Classify(name) == RightEye <==> eye && right && !left && !pupil)
      && (Classify(name) == LeftPupil <==> pupil && left)
      && (Classify(name) == RightPupil <==> pupil && right && !left)
      && (Classify(name) == NoRole <==> (!left && !right) || (!eye && !pupil))
    ensures Classify(ToLower(name)) == Classify(name)
  {
    ToLowerIdempotent(name);
  }

  /** A bone reference: one set in the inspector before the search, or the
      child at a position of the GetComponentsInChildren list. */
  datatype Bone = InspectorBone | ChildBone(index: nat)

  /** The role of every child, in the order GetComponentsInChildren lists them. */
  function Roles(children: seq<string>): (r: seq<BoneRole>)
    ensures |r| == |children| && forall i :: 0 <= i < |children| ==> r[i] == Classify(children[i])
  {
    seq(|children|, i requires 0 <= i < |children| => Classify(children[i]))
  }

  /** The value a bone field holds after the search: the last child with the
      role, or the field's earlier value when no child has it. */
  function LastWithRole(roles: seq<BoneRole>, role: BoneRole, earlier: Option<Bone>): (r: Option<Bone>)
    ensures r == earlier || (r.Some? && r.value.ChildBone? && r.value.index < |roles| && roles[r.value.index] == role)
    ensures (forall j :: 0 <= j < |roles| ==> roles[j] != role) ==> r == earlier
    ensures (exists j :: 0 <= j < |roles| && roles[j] == role) ==>
      (r.Some? && r.value.ChildBone? && r.value.index < |roles|
       && roles[r.value.index] == role
       && forall j :: r.value.index < j < |roles| ==> roles[j] != role)
  {
    if |roles| == 0 then earlier
    else if roles[|roles| - 1] == role then Some(ChildBone(|roles| - 1))
    else LastWithRole(roles[..|roles| - 1], role, earlier)
  }

  /** The four bone fields. */
  datatype EyeBones = EyeBones(leftEye: Option<Bone>, rightEye: Option<Bone>,
                               leftPupil: Option<Bone>, rightPupil: Option<Bone>)

  function FindEyeBones(roles: seq<BoneRole>, earlier: EyeBones): EyeBones
  {
    EyeBones(LastWithRole(roles, LeftEye, earlier.leftEye),
             LastWithRole(roles, RightEye, earlier.rightEye),
             LastWithRole(roles, LeftPupil, earlier.leftPupil),
             LastWithRole(roles, RightPupil, earlier.rightPupil))
  }

  /** One more child: only the field its role names changes, to that child. */
  lemma FindEyeBonesStep(roles: seq<BoneRole>, i: nat, earlier: EyeBones)
    requires i < |roles|
    ensures var before := FindEyeBones(roles[..i], earlier);
      var after := FindEyeBones(roles[..i + 1], earlier);
      after == match roles[i]
        case LeftEye => before.(leftEye := Some(ChildBone(i)))
        case RightEye => before.(rightEye := Some(ChildBone(i)))
        case LeftPupil => before.(leftPupil := Some(ChildBone(i)))
        case RightPupil => before.(rightPupil := Some(ChildBone(i)))
        case NoRole => before
  {
    assert roles[..i + 1][..i] == roles[..i];
  }

  /** The search never makes a child whose name contains "pupil" an eye bone:
      an eye field naming such a child held it before the search. */
  lemma PupilNamesAreNeverEyes(children: seq<string>, earlier: EyeBones, i: nat)
    requires i < |children| && Contains(ToLower(children[i]), "pupil")
    ensures var found := FindEyeBones(Roles(children), earlier);
      (found.leftEye == Some(ChildBone(i)) ==> earlier.leftEye == found.leftEye)
      && (found.rightEye == Some(ChildBone(i)) ==> earlier.rightEye == found.rightEye)
  {
    ClassifyRules(children[i]);
  }

  /** The model component: its bone fields and, for the blend-shape path, the
      renderer's weights and the four configured indices. */
  class BabyFaceModel {
    var bones: EyeBones
    var blendShapes: EyeBlendShapes
    var blendWeights: map<int, real>

    /** The serialized defaults: no bones assigned, all indices -1. */
    constructor (weights: map<int, real>)
      ensures bones == EyeBones(None, None, None, None)
      ensures blendShapes == UnassignedBlendShapes && blendWeights == weights
    {
      bones := EyeBones(None, None, None, None);
      blendShapes := UnassignedBlendShapes;
      blendWeights := weights;
    }

    /** AutoFindEyeBones over the names of the transforms under the model. */
    method AutoFindEyeBones(children: seq<string>)
      modifies this
      ensures bones == FindEyeBones(Roles(children), old(bones))
      ensures blendShapes == old(blendShapes) && blendWeights == old(blendWeights)
    {
      var earlier := bones;
      var roles := Roles(children);
      var i := 0;
      while i < |children|
        invariant 0 <= i <= |children|
        invariant bones == FindEyeBones(roles[..i], earlier)
        invariant blendShapes == old(blendShapes) && blendWeights == old(blendWeights)
      {
        var role := Classify(children[i]);
        FindEyeBonesStep(roles, i, earlier);
        if role == LeftEye {
          bones := bones.(leftEye := Some(ChildBone(i)));
        } else if role == RightEye {
          bones := bones.(rightEye := Some(ChildBone(i)));
        } else if role == LeftPupil {
          bones := bones.(leftPupil := Some(ChildBone(i)));
        } else if role == RightPupil {
          bones := bones.(rightPupil := Some(ChildBone(i)));
        }
        i := i + 1;
      }
      assert roles[..i] == roles;
    }

    /** UpdateEyesWithBlendShapes, given the normalised direction to the gaze
        point in the face's local space and the smoothing step. */
    method UpdateEyesWithBlendShapes(localDirection: Vector3, t: real)
      modifies this
      ensures blendWeights == EyeBlendStep(old(blendWeights), blendShapes, localDirection.x, localDirection.y, t)
      ensures bones == old(bones) && blendShapes == old(blendShapes)
    {
      var leftEyeX := Clamp(localDirection.x * 50.0, -50.0, 50.0);
      var leftEyeY := Clamp(localDirection.y * 50.0, -50.0, 50.0);
      var rightEyeX := Clamp(localDirection.x * 50.0, -50.0, 50.0);
      var rightEyeY := Clamp(localDirection.y * 50.0, -50.0, 50.0);
      if blendShapes.leftX >= 0 {
        blendWeights := blendWeights[blendShapes.leftX := Lerp(Weight(blendWeights, blendShapes.leftX), leftEyeX + 50.0, t)];
      }
      if blendShapes.leftY >= 0 {
        blendWeights := blendWeights[blendShapes.leftY := Lerp(Weight(blendWeights, blendShapes.leftY), leftEyeY + 50.0, t)];
      }
      if blendShapes.rightX >= 0 {
        blendWeights := blendWeights[blendShapes.rightX := Lerp(Weight(blendWeights, blendShapes.rightX), rightEyeX + 50.0, t)];
      }
      if blendShapes.rightY >= 0 {
        blendWeights := blendWeights[blendShapes.rightY := Lerp(Weight(blendWeights, blendShapes.rightY), rightEyeY + 50.0, t)];
      }
    }
  }
}
