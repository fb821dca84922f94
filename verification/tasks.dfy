/** The work a pool runs. A task body is an opaque closure; the model keeps only its identity. */
module Tasks {

  /** A submitted task: `NilTask` is Go's nil function value, `Job(id)` any other closure. */
  datatype Task = NilTask | Job(id: nat)

  /** Go's `uint32`. */
  type uint32 = x: int | 0 <= x < 0x1_0000_0000
}
