/** A value that may be missing, and facts about sequences that know nothing of what is in them. */
module Wrappers {

  datatype Option<+T> = None | Some(value: T)

  lemma {:induction false} SameTail<T>(a: seq<T>, b: seq<T>, c: seq<T>)
    ensures a + b == a + c <==> b == c
  {
    if a + b == a + c {
      assert b == (a + b)[|a|..] && c == (a + c)[|a|..];
    }
  }

  lemma {:induction false} NothingAdded<T>(a: seq<T>)
    ensures a + [] == a
  {
  }
}
