/** A module's sparse table from a channel value to the action it triggers. */
module ControlChannels {
  import opened Wrappers
  import opened Validator

  /** An opaque handle on a bound action (a Qt `Signal1<Integer>`). */
  datatype Signal = Signal(id: nat)

  /** One emission of a bound action, with the argument it was given. */
  datatype Firing = Fired(signal: Signal, argument: int)

  class ControlChannel {
    /** The module-local number of this channel. */
    const moduleChanNumber: int
    /** The owning module's name. */
    const moduleName: string
    /** One optional action per channel value 0-255. */
    const controlSignal: array<Option<Signal>>
    /** Every action fired so far, oldest first. */
    var fired: seq<Firing>

    ghost predicate Valid()
      reads this
    {
      controlSignal.Length == Levels
    }

    /** A new channel: all 256 values unbound, nothing fired. */
    constructor (number: int, owner: string)
      ensures Valid() && fresh(controlSignal)
      ensures controlSignal[..] == seq(Levels, _ => None)
      ensures moduleChanNumber == number && moduleName == owner
      ensures fired == []
    {
      controlSignal := new Option<Signal>[256](_ => None);
      moduleChanNumber := number;
      moduleName := owner;
      fired := [];
    }

    /** Binds `signal` to value `val`, replacing any earlier binding; a
        `None` signal (Java's `null`) unbinds it. */
    method SetSignal(val: int, signal: Option<Signal>) returns (r: Status)
      requires Valid()
      modifies controlSignal
      ensures r == if 0 <= val <= 255 then Done else Failed(InvalidChannelValue(val))
      ensures r.Done? ==> controlSignal[..] == old(controlSignal[..])[val := signal]
      ensures r.Failed? ==> controlSignal[..] == old(controlSignal[..])
    {
      if Validate(val, ValValidation) {
        controlSignal[val] := signal;
        r := Done;
      } else {
        r := Failed(InvalidChannelValue(val));
      }
    }

    /** The action bound to value `val`, `None` if unbound. */
    method GetSignal(val: int) returns (r: Result<Option<Signal>>)
      requires Valid()
      ensures 0 <= val <= 255 ==> r == Ok(controlSignal[val])
      ensures !(0 <= val <= 255) ==> r == Err(InvalidChannelValue(val))
    {
      if Validate(val, ValValidation) {
        return Ok(controlSignal[val]);
      } else {
        return Err(InvalidChannelValue(val));
      }
    }

    /** Fires the action bound to `val` once, with `val` as its argument; an
        unbound value is a silent no-op. The table never changes. */
    method Trigger(val: int) returns (r: Status)
      requires Valid()
      modifies this
      ensures r == if 0 <= val <= 255 then Done else Failed(InvalidChannelValue(val))
      ensures r.Done? && controlSignal[val].Some? ==> fired == old(fired) + [Fired(controlSignal[val].value, val)]
      ensures r.Done? && controlSignal[val].None? ==> fired == old(fired)
      ensures r.Failed? ==> fired == old(fired)
    {
      if Validate(val, ValValidation) {
        if controlSignal[val].Some? {
          fired := fired + [Fired(controlSignal[val].value, val)];
        }
        // An unbound value has nothing to signal.
        r := Done;
      } else {
        r := Failed(InvalidChannelValue(val));
      }
    }

    /** This channel's number within its module. */
    function GetModuleChanNumber(): (number: int)
      reads this
      ensures number == moduleChanNumber
    {
      moduleChanNumber
    }

    /** The name of the module this channel belongs to. */
    function GetModuleName(): (name: string)
      reads this
      ensures name == moduleName
    {
      moduleName
    }
  }

  /** Rebinding a value replaces its action: only the second action fires. */
  method RebindThenTrigger(c: ControlChannel, v: int, first: Signal, second: Signal)
    returns (r: Status)
    requires c.Valid() && 0 <= v <= 255
    modifies c, c.controlSignal
    ensures r == Done && c.fired == old(c.fired) + [Fired(second, v)]
  {
    var _ := c.SetSignal(v, Some(first));
    var _ := c.SetSignal(v, Some(second));
    r := c.Trigger(v);
  }
}
