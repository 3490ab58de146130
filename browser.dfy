/**
 * The two pieces of browser state the application writes: the origin's
 * local storage (a string-to-string map) and the root element of the
 * document, of which only the `dark` class and the `lang` attribute are
 * touched.
 */
module Browser {
  import opened Common

  /** `window.localStorage`. */
  class Storage {
    var entries: map<string, string>

    constructor (initial: map<string, string>)
      ensures entries == initial
    {
      entries := initial;
    }

    /** `getItem(key)`: the stored string, or `null` when the key is absent. */
    function GetItem(key: string): (r: Option<string>)
      reads this
      ensures r.Some? <==> key in entries
      ensures r.Some? ==> r.value == entries[key]
    {
      Get(entries, key)
    }

    /** `setItem(key, value)`. */
    method SetItem(key: string, value: string)
      modifies this
      ensures entries == old(entries)[key := value]
    {
      entries := entries[key := value];
    }

    /** `removeItem(key)`: removes the key and nothing else. */
    method RemoveItem(key: string)
      modifies this
      ensures entries == old(entries) - {key}
      ensures key !in entries
      ensures forall k :: k != key ==> (k in entries <==> k in old(entries))
      ensures forall k :: k in entries ==> entries[k] == old(entries)[k]
    {
      entries := entries - {key};
    }
  }

  /** `document.documentElement`: whether it has class `dark`, and its `lang`. */
  class Document {
    var darkClass: bool
    var lang: string

    constructor ()
      ensures !darkClass && lang == ""
    {
      darkClass := false;
      lang := "";
    }

    /** `classList.toggle("dark", force)`: with a second argument, toggle sets the class to `force`. */
    method ToggleDark(force: bool)
      modifies this
      ensures darkClass == force && lang == old(lang)
    {
      darkClass := force;
    }

    method SetLang(value: string)
      modifies this
      ensures lang == value && darkClass == old(darkClass)
    {
      lang := value;
    }
  }
}
