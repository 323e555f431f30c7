/** The `Transform` component (src/components.ts): where an entity is, how it
    is turned (degrees once a drone has been stepped) and how large it is. The
    code everywhere reads and writes `size`, so that is the field kept here. */
module Components {
  import opened Vector

  datatype Transform = Transform(position: Vec2, rotation: real, size: Vec2)
}
