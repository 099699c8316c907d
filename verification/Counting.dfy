/** The instrumented sequence with which the program measures element reads. */
module Counting {

  class CountingSequence<T> {
    const items: seq<T>
    var readCount: nat

    constructor (items: seq<T>)
      ensures this.items == items && readCount == 0
    {
      this.items := items;
      readCount := 0;
    }

    method Get(index: nat) returns (item: T)
      requires index < |items|
      modifies this`readCount
      ensures item == items[index]
      ensures readCount == old(readCount) + 1
    {
      readCount := readCount + 1;
      item := items[index];
    }
  }
}
