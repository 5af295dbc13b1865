/**
  The pointer word of a `WaitQueue`, seen from the primitive that owns it.
  The four machine states fold into three: `UPDATING` and a tagged pointer both mean that one
  thread has exclusive access to the queue contents. The tag-lock module proves that the real
  word, with stale pointers and recycled queue blocks, behaves like this one.
 */
module WaitWord {
  datatype Word = Null | Held(holder: nat) | Published
}
