/** Go-shaped value wrappers shared by the whole model. */
module Wrappers {

  /** A Go pointer or an optional value: nil or present. */
  datatype Option<+T> = None | Some(value: T)

  /** A value together with the error a Go call returned in its place. */
  datatype Result<+T, +E> = Success(value: T) | Failure(error: E)

  /** A Go slice: nil, or a (possibly empty) run of elements. Go's `len`
      does not tell the two apart; `== nil` does. */
  datatype Slice<+T> = Nil | Of(elems: seq<T>) {

    /** `len(s)` */
    function Len(): nat {
      if Nil? then 0 else |elems|
    }

    /** The elements, nil read as the empty run. */
    function Items(): seq<T> {
      if Nil? then [] else elems
    }
  }
}

/** The objects Go code reaches through pointers. */
module Pointers {

  /** A `*string`: a heap cell holding a string. Two pointers are the same
      only when they are the same cell. */
  class StringPtr {
    var value: string

    constructor (v: string)
      ensures value == v
    {
      value := v;
    }
  }
}
