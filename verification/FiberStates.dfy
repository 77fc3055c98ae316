// Fiber::State (LioNet/fiber.h:29-36), shared by the scheduler and the fiber models.
module FiberStates {
  datatype FState = INIT | HOLD | EXEC | TERM | READY | EXCEPT

  predicate Finished(st: FState) {
    st == TERM || st == EXCEPT
  }

  // What ~Fiber and Fiber::reset assert about the fiber they are applied to.
  predicate Disposable(st: FState) {
    st == TERM || st == EXCEPT || st == INIT
  }

  predicate Yielded(st: FState) {
    st == READY || st == HOLD
  }
}
