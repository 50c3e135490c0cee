/** What the stream parsers share: decoded tool input and a consumer that may stop at any item. */
module Streams {
  import opened Wrappers

  datatype Json =
    | Null
    | Bool(b: bool)
    | Number(text: string)
    | Str(s: string)
    | Array(items: seq<Json>)
    | Object(fields: map<string, Json>)

  /** Tool input: the decoded JSON, or the raw text when it does not decode. */
  datatype Input = Parsed(value: Json) | Unparsed(raw: string)

  /** The JSON decoder is a parameter; nothing about it is used except that it is a function. */
  type Decoder = string -> Option<Json>

  function Decoded(decode: Decoder, raw: string): Input {
    match decode(raw)
    case Some(v) => Parsed(v)
    case None => Unparsed(raw)
  }

  /**
   The body of a range-over-func loop. `keepsGoing` decides, from everything received so far,
   whether the loop goes on. Calling `Yield` after it returned false breaks the iterator contract,
   so that is its precondition.
   */
  class Consumer<T> {
    const keepsGoing: seq<T> -> bool
    var received: seq<T>
    var stopped: bool

    /** It went on after every item but possibly the last, and stopped exactly if it refused that one. */
    ghost predicate Valid()
      reads this
    {
      && (forall k | 0 < k < |received| :: keepsGoing(received[..k]))
      && stopped == (received != [] && !keepsGoing(received))
    }

    /** It received `items`, or the part of it up to where it stopped. */
    ghost predicate Saw(items: seq<T>)
      reads this
    {
      Valid() && received <= items && (stopped || received == items)
    }

    constructor (keepsGoing: seq<T> -> bool)
      ensures this.keepsGoing == keepsGoing && received == [] && !stopped && Valid()
    {
      this.keepsGoing := keepsGoing;
      received, stopped := [], false;
    }

    method Yield(item: T) returns (more: bool)
      requires Valid() && !stopped
      modifies this
      ensures Valid() && received == old(received) + [item]
      ensures more == !stopped
    {
      ghost var before := received;
      received := received + [item];
      more := keepsGoing(received);
      stopped := !more;
      forall k | 0 < k < |received| ensures keepsGoing(received[..k]) {
        assert received[..k] == before[..k];
        assert k == |before| ==> before[..k] == before;
      }
    }
  }
}
