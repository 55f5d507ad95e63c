/** Vocabulary shared by the modules. */
module Common {

  /** Thread ids, counted from 1; 0 is nobody. */
  type ClientId = nat

  datatype Option<T> = None | Some(value: T)

  function Elems<T>(list: seq<T>): set<T> {
    set x | x in list
  }
}
