/** The base `GameObject` of src/gameObject.ts: a named thing with a
    transform. Obstacles are plain game objects; what they inherit from the
    base class for the frame loop is a collision handler and an update that
    both do nothing. The sprite and `render` belong to the page and are not
    part of this model. */
module GameObjects {
  import opened Components

  class GameObject {
    /** The key the scene files the object under. */
    const name: string
    var transform: Transform

    constructor (transform: Transform, name: string)
      ensures this.name == name && this.transform == transform
    {
      this.name := name;
      this.transform := transform;
    }

    /** The base collision handler ignores the collision. */
    method OnCollision(objectCollidedWith: object)
      ensures transform == old(transform)
    {
    }

    /** The base update leaves the object where it is, for any frame length. */
    method Update(deltaTime: real)
      ensures transform == old(transform)
    {
    }
  }
}
