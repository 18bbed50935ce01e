/**
 * The transform stack (`GLmatStruct`): the current model-view-projection
 * matrix and a stack of saved ones. Every transform method of Screen either
 * pre-multiplies the current matrix or moves a matrix between it and the
 * stack. Library constructors whose values are floating-point numerics
 * (`from_axis_angle`, `tan`, `append_nonuniform_scaling`) are parameters.
 */
module Transform {

  /** A 4x4 matrix as four rows of four entries. */
  type Mat4 = m: seq<seq<real>> | |m| == 4 && forall i :: 0 <= i < 4 ==> |m[i]| == 4
    witness [[1.0, 0.0, 0.0, 0.0], [0.0, 1.0, 0.0, 0.0], [0.0, 0.0, 1.0, 0.0], [0.0, 0.0, 0.0, 1.0]]

  /** `Matrix4::new`: the arguments are the entries, row by row. */
  function FromRows(n00: real, n01: real, n02: real, n03: real,
                    n10: real, n11: real, n12: real, n13: real,
                    n20: real, n21: real, n22: real, n23: real,
                    n30: real, n31: real, n32: real, n33: real): Mat4
  {
    [[n00, n01, n02, n03], [n10, n11, n12, n13], [n20, n21, n22, n23], [n30, n31, n32, n33]]
  }

  function Identity(): Mat4
  {
    FromRows(1.0, 0.0, 0.0, 0.0, 0.0, 1.0, 0.0, 0.0, 0.0, 0.0, 1.0, 0.0, 0.0, 0.0, 0.0, 1.0)
  }

  /** Entry (i, j) of the product `a * b`. */
  function Dot(a: Mat4, b: Mat4, i: nat, j: nat): real
    requires i < 4 && j < 4
  {
    a[i][0] * b[0][j] + a[i][1] * b[1][j] + a[i][2] * b[2][j] + a[i][3] * b[3][j]
  }

  function Mul(a: Mat4, b: Mat4): Mat4
  {
    seq(4, i requires 0 <= i < 4 => seq(4, j requires 0 <= j < 4 => Dot(a, b, i, j)))
  }

  /** The matrix `translate(x, y, z)` pre-multiplies by: x, y, z in the last column. */
  function Translation(x: real, y: real, z: real): Mat4
  {
    FromRows(1.0, 0.0, 0.0, x, 0.0, 1.0, 0.0, y, 0.0, 0.0, 1.0, z, 0.0, 0.0, 0.0, 1.0)
  }

  /** The matrix `shearX(angle)` pre-multiplies by, given `tan(angle)`: row 0, column 1. */
  function ShearXMatrix(t: real): Mat4
  {
    FromRows(1.0, t, 0.0, 0.0, 0.0, 1.0, 0.0, 0.0, 0.0, 0.0, 1.0, 0.0, 0.0, 0.0, 0.0, 1.0)
  }

  /** The matrix `shearY(angle)` pre-multiplies by, given `tan(angle)`: row 1, column 0. */
  function ShearYMatrix(t: real): Mat4
  {
    FromRows(1.0, 0.0, 0.0, 0.0, t, 1.0, 0.0, 0.0, 0.0, 0.0, 1.0, 0.0, 0.0, 0.0, 0.0, 1.0)
  }

  /** The current matrix and the saved stack, as a value. */
  datatype MatState = MatState(curr: Mat4, stack: seq<Mat4>)

  /** What a Screen starts with: identity, and a stack holding one identity. */
  function Initial(): MatState { MatState(Identity(), [Identity()]) }

  function Push(s: MatState): MatState { MatState(s.curr, s.stack + [s.curr]) }

  /** A pop from an empty stack falls back to the identity. */
  function Pop(s: MatState): MatState
  {
    if |s.stack| == 0 then MatState(Identity(), [])
    else MatState(s.stack[|s.stack| - 1], s.stack[..|s.stack| - 1])
  }

  function Reset(s: MatState): MatState { MatState(Identity(), s.stack) }

  /** Every other transform: the current matrix becomes `m * curr`. */
  function Apply(s: MatState, m: Mat4): MatState { MatState(Mul(m, s.curr), s.stack) }

  /** `GLmatStruct` with the transform methods of Screen, which touch nothing else. */
  class Matrices {
    var curr: Mat4
    var stack: seq<Mat4>

    function State(): MatState
      reads this
    {
      MatState(curr, stack)
    }

    constructor ()
      ensures State() == Initial()
    {
      curr := Identity();
      stack := [Identity()];
    }

    method ApplyMatrix(n00: real, n01: real, n02: real, n03: real,
                       n10: real, n11: real, n12: real, n13: real,
                       n20: real, n21: real, n22: real, n23: real,
                       n30: real, n31: real, n32: real, n33: real)
      modifies this
      ensures State() == Apply(old(State()), FromRows(n00, n01, n02, n03, n10, n11, n12, n13,
                                                      n20, n21, n22, n23, n30, n31, n32, n33))
    {
      var m := FromRows(n00, n01, n02, n03, n10, n11, n12, n13, n20, n21, n22, n23, n30, n31, n32, n33);
      curr := Mul(m, curr);
    }

    method PopMatrix()
      modifies this
      ensures State() == Pop(old(State()))
    {
      if |stack| > 0 {
        curr := stack[|stack| - 1];
        stack := stack[..|stack| - 1];
      } else {
        curr := Identity();
      }
    }

    method PushMatrix()
      modifies this
      ensures State() == Push(old(State()))
    {
      stack := stack + [curr];
    }

    method ResetMatrix()
      modifies this
      ensures State() == Reset(old(State()))
    {
      curr := Identity();
    }

    /** `rotate`: the axis-angle matrix comes from the library, here a parameter. */
    method Rotate(fromAxisAngle: (real, real, real, real) -> Mat4, angle: real, x: real, y: real, z: real)
      modifies this
      ensures State() == Apply(old(State()), fromAxisAngle(x, y, z, angle))
    {
      curr := Mul(fromAxisAngle(x, y, z, angle), curr);
    }

    method RotateX(fromAxisAngle: (real, real, real, real) -> Mat4, angle: real)
      modifies this
      ensures State() == Apply(old(State()), fromAxisAngle(1.0, 0.0, 0.0, angle))
    {
      curr := Mul(fromAxisAngle(1.0, 0.0, 0.0, angle), curr);
    }

    method RotateY(fromAxisAngle: (real, real, real, real) -> Mat4, angle: real)
      modifies this
      ensures State() == Apply(old(State()), fromAxisAngle(0.0, 1.0, 0.0, angle))
    {
      curr := Mul(fromAxisAngle(0.0, 1.0, 0.0, angle), curr);
    }

    method RotateZ(fromAxisAngle: (real, real, real, real) -> Mat4, angle: real)
      modifies this
      ensures State() == Apply(old(State()), fromAxisAngle(0.0, 0.0, 1.0, angle))
    {
      curr := Mul(fromAxisAngle(0.0, 0.0, 1.0, angle), curr);
    }

    /** `scale`: the library's in-place scaling, a parameter; the stack is untouched. */
    method Scale(appendScaling: (Mat4, real, real, real) -> Mat4, x: real, y: real, z: real)
      modifies this
      ensures State() == MatState(appendScaling(old(curr), x, y, z), old(stack))
    {
      curr := appendScaling(curr, x, y, z);
    }

    method ShearX(tan: real -> real, angle: real)
      modifies this
      ensures State() == Apply(old(State()), ShearXMatrix(tan(angle)))
    {
      var m := FromRows(1.0, tan(angle), 0.0, 0.0, 0.0, 1.0, 0.0, 0.0, 0.0, 0.0, 1.0, 0.0, 0.0, 0.0, 0.0, 1.0);
      curr := Mul(m, curr);
    }

    method ShearY(tan: real -> real, angle: real)
      modifies this
      ensures State() == Apply(old(State()), ShearYMatrix(tan(angle)))
    {
      var m := FromRows(1.0, 0.0, 0.0, 0.0, tan(angle), 1.0, 0.0, 0.0, 0.0, 0.0, 1.0, 0.0, 0.0, 0.0, 0.0, 1.0);
      curr := Mul(m, curr);
    }

    method Translate(x: real, y: real, z: real)
      modifies this
      ensures State() == Apply(old(State()), Translation(x, y, z))
    {
      var m := FromRows(1.0, 0.0, 0.0, x, 0.0, 1.0, 0.0, y, 0.0, 0.0, 1.0, z, 0.0, 0.0, 0.0, 1.0);
      curr := Mul(m, curr);
    }
  }

  // ---------------------------------------------------------------- properties

  /** A push saves the current matrix on top of the stack and keeps it current. */
  lemma PushSaves(s: MatState)
    ensures var r := Push(s);
      r.curr == s.curr && |r.stack| == |s.stack| + 1 &&
      r.stack[|s.stack|] == s.curr && r.stack[..|s.stack|] == s.stack
  {
  }

  /**
   * A pop from a non-empty stack makes its top current and shortens it by
   * one; from an empty stack it gives the identity and leaves it empty.
   */
  lemma PopRestores(s: MatState)
    ensures var r := Pop(s);
      (|s.stack| > 0 ==> r.curr == s.stack[|s.stack| - 1] && r.stack + [r.curr] == s.stack) &&
      (|s.stack| == 0 ==> r.curr == Identity() && r.stack == [])
  {
    if |s.stack| > 0 {
      assert s.stack[..|s.stack| - 1] + [s.stack[|s.stack| - 1]] == s.stack;
    }
  }

  /** A push followed by a pop gives back the matrix and the stack. */
  lemma PushThenPop(s: MatState)
    ensures Pop(Push(s)) == s
  {
    assert (s.stack + [s.curr])[..|s.stack|] == s.stack;
  }

  /** Whatever was pushed between a push and its pop is discarded by the pop. */
  lemma PushApplyPop(s: MatState, m: Mat4)
    ensures Pop(Apply(Push(s), m)) == s
  {
    assert (s.stack + [s.curr])[..|s.stack|] == s.stack;
  }

  /** Reset gives the identity and keeps the stack, whatever the current matrix was. */
  lemma ResetKeepsStack(s: MatState)
    ensures Reset(s).curr == Identity() && Reset(s).stack == s.stack
    ensures Reset(Reset(s)) == Reset(s)
  {
  }

  /** Pre-multiplying by the identity changes nothing. */
  lemma IdentityLeft(m: Mat4)
    ensures Mul(Identity(), m) == m
  {
    var p := Mul(Identity(), m);
    forall i, j | 0 <= i < 4 && 0 <= j < 4
      ensures p[i][j] == m[i][j]
    {
      assert p[i][j] == Dot(Identity(), m, i, j);
    }
    forall i | 0 <= i < 4
      ensures p[i] == m[i]
    {
    }
  }

  /** `translate(0, 0, 0)` (and every shear by `tan = 0`) leaves the state unchanged. */
  lemma TranslateZero(s: MatState)
    ensures Apply(s, Translation(0.0, 0.0, 0.0)) == s
    ensures Apply(s, ShearXMatrix(0.0)) == s && Apply(s, ShearYMatrix(0.0)) == s
  {
    assert Translation(0.0, 0.0, 0.0) == Identity();
    assert ShearXMatrix(0.0) == Identity() && ShearYMatrix(0.0) == Identity();
    IdentityLeft(s.curr);
  }

  /** The applied matrix becomes the current one when current is the identity. */
  lemma ApplyToIdentity(m: Mat4)
    ensures Apply(Reset(Initial()), m).curr == m
  {
    var p := Mul(m, Identity());
    forall i, j | 0 <= i < 4 && 0 <= j < 4
      ensures p[i][j] == m[i][j]
    {
      assert p[i][j] == Dot(m, Identity(), i, j);
    }
    forall i | 0 <= i < 4
      ensures p[i] == m[i]
    {
    }
  }

  /** Two translations compose into one whose offsets add up. */
  lemma TranslationsCompose(a: real, b: real, c: real, x: real, y: real, z: real)
    ensures Mul(Translation(x, y, z), Translation(a, b, c)) == Translation(a + x, b + y, c + z)
  {
    var p := Mul(Translation(x, y, z), Translation(a, b, c));
    var t := Translation(a + x, b + y, c + z);
    forall i, j | 0 <= i < 4 && 0 <= j < 4
      ensures p[i][j] == t[i][j]
    {
      assert p[i][j] == Dot(Translation(x, y, z), Translation(a, b, c), i, j);
    }
    forall i | 0 <= i < 4
      ensures p[i] == t[i]
    {
    }
  }

  /** No transform but push and pop touches the stack. */
  lemma OnlyPushPopTouchStack(s: MatState, m: Mat4)
    ensures Apply(s, m).stack == s.stack && Reset(s).stack == s.stack
    ensures |Push(s).stack| == |s.stack| + 1
    ensures |s.stack| > 0 ==> |Pop(s).stack| == |s.stack| - 1
  {
  }
}
