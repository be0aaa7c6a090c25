/** Go's `*T`: a heap cell whose content a callee can overwrite for its caller. */
module GoPointers {

  class Puntero<T> {
    var valor: T

    /** Go's `&v` for a fresh variable holding `v` (also `new(T)` with the zero value passed in). */
    constructor (v: T)
      ensures valor == v
    {
      valor := v;
    }
  }
}
