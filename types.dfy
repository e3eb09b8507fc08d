/**
 * The fixed-length numeric buffers of src/types.ts, as values. Every buffer the library
 * writes is an `array<real>` of one of these lengths; `a[..]` is its value.
 */
module Types {

  type Vec2 = s: seq<real> | |s| == 2 witness [0.0, 0.0]
  type Vec3 = s: seq<real> | |s| == 3 witness [0.0, 0.0, 0.0]
  type Vec4 = s: seq<real> | |s| == 4 witness [0.0, 0.0, 0.0, 0.0]

  /** Column-major 2x2: [m00, m01, m10, m11]. */
  type Mat2 = s: seq<real> | |s| == 4 witness [0.0, 0.0, 0.0, 0.0]

  /** 2x2 linear part followed by the translation tx, ty. */
  type Mat2d = s: seq<real> | |s| == 6 witness [0.0, 0.0, 0.0, 0.0, 0.0, 0.0]

  /** Column-major 3x3. */
  type Mat3 = s: seq<real> | |s| == 9 witness [0.0, 0.0, 0.0, 0.0, 0.0, 0.0, 0.0, 0.0, 0.0]

  /** Column-major 4x4. */
  type Mat4 = s: seq<real> | |s| == 16
    witness [0.0, 0.0, 0.0, 0.0, 0.0, 0.0, 0.0, 0.0, 0.0, 0.0, 0.0, 0.0, 0.0, 0.0, 0.0, 0.0]

  /** [x, y, z, w]. */
  type Quat = s: seq<real> | |s| == 4 witness [0.0, 0.0, 0.0, 0.0]

  /** A result that the source signals with `null`. */
  datatype Option<+T> = None | Some(value: T)

  // Extensionality for the short displays: componentwise equality is equality.

  lemma Ext2(r: seq<real>, s: seq<real>)
    requires |r| == 2 && |s| == 2 && r[0] == s[0] && r[1] == s[1]
    ensures r == s
  {
  }

  lemma Ext3(r: seq<real>, s: seq<real>)
    requires |r| == 3 && |s| == 3 && r[0] == s[0] && r[1] == s[1] && r[2] == s[2]
    ensures r == s
  {
  }

  lemma Ext4(r: seq<real>, s: seq<real>)
    requires |r| == 4 && |s| == 4 && r[0] == s[0] && r[1] == s[1] && r[2] == s[2] && r[3] == s[3]
    ensures r == s
  {
  }

  lemma Ext9(r: seq<real>, s: seq<real>)
    requires |r| == 9 && |s| == 9
    requires r[0] == s[0] && r[1] == s[1] && r[2] == s[2]
    requires r[3] == s[3] && r[4] == s[4] && r[5] == s[5]
    requires r[6] == s[6] && r[7] == s[7] && r[8] == s[8]
    ensures r == s
  {
  }
}
