/** Positions in the scene and the optional values the scripts test against null. */
module Space {

  /** A Unity Vector3. Only equality and assignment of positions matter to the AI logic;
      the vector maths (distances, angles) is done by the engine and reaches the model as reals. */
  datatype Vec3 = Vec3(x: real, y: real, z: real)

  /** The default value of a Vector3 field that was never assigned. */
  const Origin := Vec3(0.0, 0.0, 0.0)

  /** A reference that may be null (a Transform that was not wired in the inspector). */
  datatype Option<T> = None | Some(value: T)
}
