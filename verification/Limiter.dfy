/** The permit pool of the enricher and of the reporter: a buffered channel
    whose occupied slots are the permits taken. */
module LimiterModule {

  class Limiter {
    const capacity: nat
    var length: nat

    ghost predicate Valid()
      reads this
    {
      length <= capacity
    }

    // A maximum of zero or less gives the nil channel, on which nothing can be sent.
    constructor (maximum: int)
      ensures Valid() && length == 0
      ensures capacity == if maximum <= 0 then 0 else maximum
    {
      capacity := if maximum <= 0 then 0 else maximum;
      length := 0;
    }

    method TryAcquire() returns (ok: bool)
      requires Valid()
      modifies this
      ensures Valid() && ok == (old(length) < capacity)
      ensures length == if ok then old(length) + 1 else old(length)
    {
      ok := length < capacity;
      if ok { length := length + 1; }
    }

    // A receive: it would block on an empty channel.
    method Release()
      requires Valid() && length > 0
      modifies this
      ensures Valid() && length == old(length) - 1
    {
      length := length - 1;
    }
  }
}
