/**
 * `AttrDict` (utils.py): a dict whose items are also read, written and deleted as attributes.
 * A missing name raises AttributeError rather than KeyError.
 */
module Utils {
  import opened Errors

  class AttrDict<V> {
    /** The items of the underlying dict. */
    var items: map<string, V>

    constructor (items: map<string, V>)
      ensures this.items == items
    {
      this.items := items;
    }

    /** `d.attr`: the stored value, or AttributeError for a name that is not a key. */
    function GetAttr(attr: string): (r: Result<V>)
      reads this
      ensures attr in items <==> r.Success?
      ensures r.Success? ==> r.value == items[attr]
      ensures r.Failure? ==> r.error == AttributeError(attr)
    {
      if attr in items then Success(items[attr]) else Failure(AttributeError(attr))
    }

    /** `d.attr = value`: stores under that key; every other key reads as before. */
    method SetAttr(attr: string, value: V)
      modifies this
      ensures items == old(items)[attr := value]
      ensures GetAttr(attr) == Success(value)
      ensures forall k :: k != attr ==> GetAttr(k) == old(GetAttr(k))
    {
      items := items[attr := value];
    }

    /** `del d.attr`: removes exactly that key, or raises AttributeError and changes nothing. */
    method DelAttr(attr: string) returns (r: Outcome)
      modifies this
      ensures r == (if attr in old(items) then Pass else Fail(AttributeError(attr)))
      ensures items == old(items) - {attr}
      ensures GetAttr(attr).Failure?
      ensures forall k :: k != attr ==> GetAttr(k) == old(GetAttr(k))
    {
      if attr in items {
        items := items - {attr};
        r := Pass;
      } else {
        r := Fail(AttributeError(attr));
      }
    }
  }
}
