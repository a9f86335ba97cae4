/** `randomRangeNotIn` of the manager's routers: rejection sampling of an
    integer in [min, max) that the strict-equality search does not find in
    `numbers`, with an up-front refusal when `numbers` is as long as the
    range. `Math.random` is replaced by a nondeterministic choice. */
module PortAllocator {
  import opened Wrappers
  import opened Js

  const PortMin := 5000
  const PortMax := 10000
  const WsPortMin := 45000
  const WsPortMax := 50000

  /** The integers `numbers.indexOf(number)` can find. */
  function FindableNumbers(numbers: seq<JsValue>): (found: set<int>)
    ensures forall x :: x in found <==> Number(x) in numbers
    ensures |found| <= |numbers|
  {
    if numbers == [] then {}
    else
      var rest := FindableNumbers(numbers[1..]);
      assert numbers == [numbers[0]] + numbers[1..];
      if numbers[0].Number? then rest + {numbers[0].n} else rest
  }

  /** The half-open integer range [min, max). */
  function Range(min: int, max: int): (r: set<int>)
    ensures forall x :: x in r <==> min <= x < max
    ensures |r| == if max <= min then 0 else max - min
    decreases max - min
  {
    if max <= min then {}
    else
      var r := Range(min, max - 1);
      assert max - 1 !in r;
      r + {max - 1}
  }

  lemma SubsetCardinality(a: set<int>, b: set<int>)
    requires a <= b
    ensures |a| <= |b|
  {
    assert b == a + (b - a);
    assert a * (b - a) == {};
  }

  /** Pigeonhole: a set with fewer elements than the range leaves a value of
      the range free. */
  lemma {:induction false} FreeValueExists(min: int, max: int, taken: set<int>)
    requires |taken| < max - min
    ensures exists v :: min <= v < max && v !in taken
  {
    var range := Range(min, max);
    if range <= taken {
      SubsetCardinality(range, taken);
    }
    var v :| v in range && v !in taken;
  }

  /** Models `randomRangeNotIn(min, max, numbers)`. The do-while loop draws
      until `numbers.indexOf(number) === -1`; each redraw here is a value not
      rejected before (a redraw that repeats a rejected value changes
      nothing), so every run that ends is covered and the loop is seen to
      end. */
  method RandomRangeNotIn(min: int, max: int, numbers: seq<JsValue>) returns (r: Option<int>)
    ensures r.None? <==> |numbers| >= max - min
    ensures r.Some? ==> min <= r.value < max && IndexOfValue(numbers, Number(r.value)) == -1
  {
    if |numbers| >= max - min {
      return None;
    }
    var rejected: set<int> := {};
    FreeValueExists(min, max, rejected);
    var number :| min <= number < max && number !in rejected;
    while IndexOfValue(numbers, Number(number)) != -1
      invariant min <= number < max && number !in rejected
      invariant rejected <= FindableNumbers(numbers)
      decreases |FindableNumbers(numbers)| - |rejected|
    {
      rejected := rejected + {number};
      SubsetCardinality(rejected, FindableNumbers(numbers));
      FreeValueExists(min, max, rejected);
      number :| min <= number < max && number !in rejected;
    }
    r := Some(number);
  }

  /** The two ranges the routers draw from are disjoint, so the primary
      port and the websocket port of one instance always differ. */
  lemma PortRangesDisjoint(port: int, wsPort: int)
    requires PortMin <= port < PortMax && WsPortMin <= wsPort < WsPortMax
    ensures port != wsPort
  {
  }
}
