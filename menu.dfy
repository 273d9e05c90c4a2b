/** The menu screen: a list of key selections, each returning a task or
    opening a sub-menu, and a debounce that ignores a key still held from
    before the menu appeared (animations/MenuAnimation.java). */
module Menus {
  import opened JavaText

  /** What a selection returns: a task, or a sub-menu to run. */
  datatype Choice<T> = Task(value: T) | Sub(menu: MenuAnimation<T>)

  /** A key, the message shown beside it, and what choosing it returns. */
  datatype Selection<T> = Selection(key: string, message: string, ret: Choice<T>)

  /** The index of the first selection whose key is held, if any. */
  function FirstPressed<T>(sels: seq<Selection<T>>, keys: set<string>): (r: Option<nat>)
    ensures r.None? <==> forall j :: 0 <= j < |sels| ==> sels[j].key !in keys
    ensures r.Some? ==> r.value < |sels| && sels[r.value].key in keys
    ensures r.Some? ==> forall j :: 0 <= j < r.value ==> sels[j].key !in keys
  {
    if |sels| == 0 then None
    else if sels[0].key in keys then Some(0)
    else
      var rest := FirstPressed(sels[1..], keys);
      assert forall j :: 1 <= j < |sels| ==> sels[j] == sels[1..][j - 1];
      if rest.None? then None else Some(rest.value + 1)
  }

  /** The fields one frame reads and writes. */
  datatype MenuState<T> = MenuState(stop: bool, current: Option<Choice<T>>, alreadyPressed: bool)

  /** One frame: with no registered key held the debounce is released;
      with one held after a release, the first held key in insertion order
      is chosen and the menu stops; a key held without a release changes
      nothing. */
  function AfterFrame<T>(s: MenuState<T>, sels: seq<Selection<T>>, keys: set<string>): (r: MenuState<T>)
    ensures (forall j :: 0 <= j < |sels| ==> sels[j].key !in keys) ==> r == s.(alreadyPressed := false)
    ensures (exists j :: 0 <= j < |sels| && sels[j].key in keys) && s.alreadyPressed ==> r == s
    ensures (exists j :: 0 <= j < |sels| && sels[j].key in keys) && !s.alreadyPressed ==>
      r.stop && !r.alreadyPressed && r.current.Some? &&
      exists i :: 0 <= i < |sels| && sels[i].key in keys && r.current.value == sels[i].ret &&
        forall j :: 0 <= j < i ==> sels[j].key !in keys
  {
    match FirstPressed(sels, keys)
    case None => s.(alreadyPressed := false)
    case Some(i) => if s.alreadyPressed then s else s.(stop := true, current := Some(sels[i].ret))
  }

  /** A new menu treats every key as still held, so a key held on its
      first frame selects nothing. */
  lemma HeldKeyIgnoredOnFirstFrame<T>(sels: seq<Selection<T>>, keys: set<string>)
    ensures !AfterFrame(MenuState(false, None, true), sels, keys).stop
    ensures AfterFrame(MenuState(false, None, true), sels, keys).current == None
  {
  }

  /** A frame with no registered key held, then one with a key held,
      selects the first held key's return value and stops. */
  lemma ReleaseThenPress<T>(s: MenuState<T>, sels: seq<Selection<T>>, i: nat, keys: set<string>)
    requires i < |sels| && sels[i].key in keys
    requires forall j :: 0 <= j < i ==> sels[j].key !in keys
    ensures AfterFrame(AfterFrame(s, sels, {}), sels, keys) ==
      MenuState(true, Some(sels[i].ret), false)
  {
    assert FirstPressed(sels, keys) == Some(i);
  }

  /** What getStatus reports for a stored value: nothing when it is a
      registered sub-menu (the caller runs that menu), the value otherwise. */
  function Reported<T>(current: Option<Choice<T>>, subMenus: map<string, MenuAnimation<T>>): (r: Option<Choice<T>>)
    ensures current.Some? && current.value.Task? ==> r == current
    ensures current.Some? && current.value.Sub? ==> (r.None? <==> current.value.menu in subMenus.Values)
    ensures r.Some? ==> r == current
  {
    if current.Some? && current.value.Sub? && current.value.menu in subMenus.Values then None else current
  }

  class MenuAnimation<T> {
    const title: string
    var selections: seq<Selection<T>>
    var stop: bool
    var current: Option<Choice<T>>
    var subMenus: map<string, MenuAnimation<T>>
    var alreadyPressed: bool

    function State(): MenuState<T>
      reads this
    {
      MenuState(stop, current, alreadyPressed)
    }

    constructor (title: string)
      ensures this.title == title && selections == [] && subMenus == map[]
      ensures State() == MenuState(false, None, true)
    {
      this.title := title;
      selections := [];
      stop := false;
      current := None;
      subMenus := map[];
      alreadyPressed := true;
    }

    /** Scans the selections in order for a held key; see AfterFrame. */
    method DoOneFrame(keys: set<string>)
      modifies this`stop, this`current, this`alreadyPressed
      ensures State() == AfterFrame(old(State()), selections, keys)
    {
      ghost var first := FirstPressed(selections, keys);
      var enter := false;
      var i := 0;
      while i < |selections|
        invariant 0 <= i <= |selections|
        invariant first.Some? && first.value < i ==> enter && alreadyPressed
        invariant first.None? || i <= first.value ==> !enter
        invariant State() == old(State())
      {
        if selections[i].key in keys {
          enter := true;
          if !alreadyPressed {
            current := Some(selections[i].ret);
            stop := true;
            break;
          }
        }
        i := i + 1;
      }
      if !enter {
        alreadyPressed := false;
      }
    }

    function ShouldStop(): (r: bool)
      reads this
      ensures r <==> stop
    {
      stop
    }

    method AddSelection(key: string, message: string, returnVal: T)
      modifies this`selections
      ensures selections == old(selections) + [Selection(key, message, Task(returnVal))]
    {
      selections := selections + [Selection(key, message, Task(returnVal))];
    }

    /** Registers the sub-menu under its key (replacing one registered
        there before) and appends a selection that returns it. */
    method AddSubMenu(key: string, message: string, subMenu: MenuAnimation<T>)
      modifies this`selections, this`subMenus
      ensures subMenus == old(subMenus)[key := subMenu]
      ensures selections == old(selections) + [Selection(key, message, Sub(subMenu))]
    {
      subMenus := subMenus[key := subMenu];
      selections := selections + [Selection(key, message, Sub(subMenu))];
    }

    /** Re-arms the debounce and reports the stored value. */
    method GetStatus() returns (r: Option<Choice<T>>)
      modifies this`alreadyPressed
      ensures alreadyPressed
      ensures r == Reported(current, subMenus)
    {
      alreadyPressed := true;
      if current.Some? && current.value.Sub? && current.value.menu in subMenus.Values {
        r := None;
      } else {
        r := current;
      }
    }

    method ResetStop()
      modifies this`stop
      ensures !stop
    {
      stop := false;
    }
  }

  /** A sub-menu whose key was registered again for a different sub-menu
      is no longer in the table, so choosing its selection reports it as a
      value rather than hiding it. */
  lemma ReRegisteredKeyShowsOldSubMenu<T>(subMenus: map<string, MenuAnimation<T>>, key: string,
                                          older: MenuAnimation<T>, newer: MenuAnimation<T>)
    requires older != newer && older !in subMenus.Values
    ensures Reported(Some(Sub(older)), subMenus[key := older][key := newer]) == Some(Sub(older))
  {
    assert subMenus[key := older][key := newer] == subMenus[key := newer];
  }
}
