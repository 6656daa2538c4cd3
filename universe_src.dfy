/** The 512-channel value and association store of the earlier revision. */
module SrcUniverse {
  import opened Wrappers
  import opened Validator
  import opened UniverseEvents

  /** The label the earlier revision sends for a cleared slot. */
  const Blank: string := " "

  class Universe {
    /** Channel values, 0-based: channel n lives at index n - 1. */
    const dmxValues: array<int>
    /** Channel labels; `None` is an unset slot. */
    const dmxAssociations: array<Option<string>>
    /** Every notification emitted so far, oldest first. */
    var events: seq<Event>

    /** Both stores hold 512 slots and every stored value is a valid
        channel value. */
    ghost predicate Valid()
      reads this, dmxValues
    {
      dmxValues.Length == Channels && dmxAssociations.Length == Channels &&
      forall i :: 0 <= i < Channels ==> 0 <= dmxValues[i] <= 255
    }

    /** A new universe: every value 0, every association unset, nothing
        emitted. */
    constructor ()
      ensures Valid() && fresh(dmxValues) && fresh(dmxAssociations)
      ensures dmxValues[..] == seq(Channels, _ => 0)
      ensures dmxAssociations[..] == seq(Channels, _ => None)
      ensures events == []
    {
      dmxValues := new int[512](_ => 0);
      dmxAssociations := new Option<string>[512](_ => None);
      events := [];
    }

    /** Stores `channelValue` on channel `channelNumber`; the channel number
        is validated first, then the value. */
    method SetValue(channelNumber: int, channelValue: int) returns (r: Status)
      requires Valid()
      modifies this, dmxValues
      ensures Valid()
      ensures r == if !(1 <= channelNumber <= 512) then Failed(InvalidChannelNumber(channelNumber))
                   else if !(0 <= channelValue <= 255) then Failed(InvalidChannelValue(channelValue))
                   else Done
      ensures r.Done? ==> dmxValues[..] == old(dmxValues[..])[channelNumber - 1 := channelValue]
      ensures r.Done? ==> events == old(events) + [ValueChanged(channelNumber, channelValue)]
      ensures r.Failed? ==> dmxValues[..] == old(dmxValues[..]) && events == old(events)
      ensures unchanged(dmxAssociations)
    {
      if Validate(channelNumber, NumValidation) == false {
        return Failed(InvalidChannelNumber(channelNumber));
      } else if Validate(channelValue, ValValidation) == false {
        return Failed(InvalidChannelValue(channelValue));
      }
      dmxValues[channelNumber - 1] := channelValue;
      events := events + [ValueChanged(channelNumber, channelValue)];
      r := Done;
    }

    /** The `Integer` overload: the same store, with both errors swallowed. */
    method SetValueBoxed(channelNum: int, channelVal: int)
      requires Valid()
      modifies this, dmxValues
      ensures Valid()
      ensures if 1 <= channelNum <= 512 && 0 <= channelVal <= 255
              then dmxValues[..] == old(dmxValues[..])[channelNum - 1 := channelVal] &&
                   events == old(events) + [ValueChanged(channelNum, channelVal)]
              else dmxValues[..] == old(dmxValues[..]) && events == old(events)
      ensures unchanged(dmxAssociations)
    {
      var _ := SetValue(channelNum, channelVal);
    }

    /** The value of channel `channelNumber` (0 if it was never set). */
    method GetValue(channelNumber: int) returns (r: Result<int>)
      requires Valid()
      ensures !(1 <= channelNumber <= 512) ==> r == Err(InvalidChannelNumber(channelNumber))
      ensures 1 <= channelNumber <= 512 ==> r == Ok(dmxValues[channelNumber - 1])
      ensures r.Ok? ==> 0 <= r.value <= 255
    {
      if Validate(channelNumber, NumValidation) == false {
        return Err(InvalidChannelNumber(channelNumber));
      } else {
        var returnValue := dmxValues[channelNumber - 1];
        return Ok(returnValue);
      }
    }

    /** Labels channel `channelNumber`. A slot that is already labelled is
        first cleared through `RemoveAssociation(channelNumber, 1)`, whose
        cancellation cancels the whole call. */
    method SetAssociation(channelNumber: int, associatedElement: string, confirmed: bool)
      returns (r: Status)
      requires Valid()
      modifies this, dmxAssociations
      ensures Valid()
      ensures r == if !(1 <= channelNumber <= 512) then Failed(InvalidChannelNumber(channelNumber))
                   else if old(dmxAssociations[channelNumber - 1]).Some? && !confirmed then Failed(OperationCancelled)
                   else Done
      ensures r.Done? ==> dmxAssociations[..] == old(dmxAssociations[..])[channelNumber - 1 := Some(associatedElement)]
      ensures r.Done? ==>
                events == old(events) +
                          (if old(dmxAssociations[channelNumber - 1]).Some?
                           then [RangeRemoved(channelNumber, 1), AssocChanged(channelNumber, Blank)] else []) +
                          [AssocChanged(channelNumber, associatedElement)]
      ensures r.Failed? ==> dmxAssociations[..] == old(dmxAssociations[..]) && events == old(events)
      ensures unchanged(dmxValues)
    {
      if Validate(channelNumber, NumValidation) == false {
        return Failed(InvalidChannelNumber(channelNumber));
      }
      if dmxAssociations[channelNumber - 1] != None {
        var removed := RemoveAssociation(channelNumber, 1, confirmed);
        if removed.Failed? {
          return removed;
        }
        assert ClearNotices(channelNumber, 1, Blank) == [AssocChanged(channelNumber, Blank)];
      }
      dmxAssociations[channelNumber - 1] := Some(associatedElement);
      events := events + [AssocChanged(channelNumber, associatedElement)];
      r := Done;
    }

    /** The label of channel `channelNumber`, `None` if unset. */
    method GetAssociation(channelNumber: int) returns (r: Result<Option<string>>)
      requires Valid()
      ensures !(1 <= channelNumber <= 512) ==> r == Err(InvalidChannelNumber(channelNumber))
      ensures 1 <= channelNumber <= 512 ==> r == Ok(dmxAssociations[channelNumber - 1])
    {
      if Validate(channelNumber, NumValidation) == false {
        return Err(InvalidChannelNumber(channelNumber));
      } else {
        var returnString := dmxAssociations[channelNumber - 1];
        return Ok(returnString);
      }
    }

    /** Clears the labels of channels `channelNumber` .. `channelNumber +
        numToDelete - 1` once the user confirms; a declined confirmation
        cancels the call with nothing changed. Nothing in the source keeps
        the range inside the universe, so that is the caller's duty here. */
    method RemoveAssociation(channelNumber: int, numToDelete: int, confirmed: bool)
      returns (r: Status)
      requires Valid()
      requires 1 <= channelNumber <= 512 ==> channelNumber + numToDelete - 1 <= 512
      modifies this, dmxAssociations
      ensures Valid()
      ensures r == if !(1 <= channelNumber <= 512) then Failed(InvalidChannelNumber(channelNumber))
                   else if !confirmed then Failed(OperationCancelled)
                   else Done
      ensures r.Done? ==> forall i :: 0 <= i < Channels ==>
                dmxAssociations[i] == if channelNumber - 1 <= i < channelNumber - 1 + numToDelete
                                      then None else old(dmxAssociations[i])
      ensures r.Done? ==> events == old(events) + [RangeRemoved(channelNumber, numToDelete)] +
                                    ClearNotices(channelNumber, numToDelete, Blank)
      ensures r.Failed? ==> dmxAssociations[..] == old(dmxAssociations[..]) && events == old(events)
      ensures unchanged(dmxValues)
    {
      if Validate(channelNumber, NumValidation) == false {
        return Failed(InvalidChannelNumber(channelNumber));
      }
      if !confirmed {
        return Failed(OperationCancelled);
      }
      events := events + [RangeRemoved(channelNumber, numToDelete)];
      ghost var announced := events;
      var i := 0;
      while i < numToDelete
        invariant 0 <= i <= if numToDelete < 0 then 0 else numToDelete
        invariant forall k :: 0 <= k < Channels ==>
                    dmxAssociations[k] == if channelNumber - 1 <= k < channelNumber - 1 + i
                                          then None else old(dmxAssociations[k])
        invariant events == announced + ClearNotices(channelNumber, i, Blank)
      {
        dmxAssociations[channelNumber + i - 1] := None;
        ClearNoticesStep(channelNumber, i, Blank);
        events := events + [AssocChanged(channelNumber, Blank)];
        i := i + 1;
      }
      r := Done;
    }
  }

  /** A stored value reads back, with exactly one notification. */
  method SetThenGet(u: Universe, n: int, v: int) returns (got: Result<int>)
    requires u.Valid() && 1 <= n <= 512 && 0 <= v <= 255
    modifies u, u.dmxValues
    ensures got == Ok(v)
    ensures u.events == old(u.events) + [ValueChanged(n, v)]
  {
    var _ := u.SetValue(n, v);
    got := u.GetValue(n);
  }

  /** Labelling a free channel and then removing the label: a declined
      removal keeps the label, a confirmed one unsets it and reports the
      cleared slot with the blank label. */
  method LabelThenRemove(u: Universe, n: int, text: string, confirmed: bool)
    returns (removed: Status, got: Result<Option<string>>)
    requires u.Valid() && 1 <= n <= 512 && u.dmxAssociations[n - 1] == None
    modifies u, u.dmxAssociations
    ensures removed == if confirmed then Done else Failed(OperationCancelled)
    ensures confirmed ==> got == Ok(None) &&
                          u.events == old(u.events) + [AssocChanged(n, text), RangeRemoved(n, 1), AssocChanged(n, Blank)]
    ensures !confirmed ==> got == Ok(Some(text)) && u.events == old(u.events) + [AssocChanged(n, text)]
  {
    var _ := u.SetAssociation(n, text, confirmed);
    removed := u.RemoveAssociation(n, 1, confirmed);
    assert ClearNotices(n, 1, Blank) == [AssocChanged(n, Blank)];
    got := u.GetAssociation(n);
  }
}
