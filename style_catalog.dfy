/** The four selectable styles and the lenient lookups keyed by a style name: every
    provider keeps a table from the four names to a prompt fragment, and the canvas
    pipeline maps a name to an accent colour. Any other name selects nothing and is
    never an error. */
module StyleCatalog {
  import opened Basics

  datatype Style = NeonGlow | DarkGold | CyberpunkBlue | CosmicPurple

  function StyleName(s: Style): string {
    match s
    case NeonGlow => "Neon Glow"
    case DarkGold => "Dark Gold"
    case CyberpunkBlue => "Cyberpunk Blue"
    case CosmicPurple => "Cosmic Purple"
  }

  /** Exact, case-sensitive match of a style name (a `switch` or an own key of a table). */
  function ParseStyle(name: string): (s: Option<Style>)
    ensures s.Some? ==> StyleName(s.value) == name
  {
    if name == "Neon Glow" then Some(NeonGlow)
    else if name == "Dark Gold" then Some(DarkGold)
    else if name == "Cyberpunk Blue" then Some(CyberpunkBlue)
    else if name == "Cosmic Purple" then Some(CosmicPurple)
    else None
  }

  /** Parsing is the inverse of naming, so the four names are distinct. */
  lemma {:induction false} ParseStyleName(s: Style)
    ensures ParseStyle(StyleName(s)) == Some(s)
  {
    match s
    case NeonGlow =>
    case DarkGold =>
      assert "Dark Gold" != "Neon Glow";
    case CyberpunkBlue =>
      assert "Cyberpunk Blue"[0] != "Neon Glow"[0];
      assert "Cyberpunk Blue"[0] != "Dark Gold"[0];
    case CosmicPurple =>
      assert "Cosmic Purple"[0] != "Neon Glow"[0];
      assert "Cosmic Purple"[0] != "Dark Gold"[0];
      assert "Cosmic Purple"[1] != "Cyberpunk Blue"[1];
  }

  /** `table[name] || ''` for a table whose own keys are the four style names: the entry
      of a known style (`|| ''` keeps an empty entry empty), the empty string otherwise. */
  function Fragment(table: Style -> string, name: string): (r: string)
    ensures ParseStyle(name).None? ==> r == ""
    ensures ParseStyle(name).Some? ==> r == table(ParseStyle(name).value)
  {
    match ParseStyle(name)
    case Some(s) => if table(s) != "" then table(s) else ""
    case None => ""
  }

  /** The keys a plain object literal inherits from `Object.prototype`, including the
      four legacy accessor methods of Annex B of ECMA-262. */
  const PrototypeKeys: seq<string> := [
    "constructor", "toString", "toLocaleString", "valueOf", "hasOwnProperty",
    "isPrototypeOf", "propertyIsEnumerable", "__proto__",
    "__defineGetter__", "__defineSetter__", "__lookupGetter__", "__lookupSetter__"
  ]

  /** How a template literal renders the inherited value under such a key: the source
      text of a built-in function, or `[object Object]` for the prototype itself. */
  function InheritedText(key: string): (r: string)
    requires key in PrototypeKeys
    ensures r != ""
  {
    if key == "__proto__" then "[object Object]"
    else if key == "constructor" then "function Object() { [native code] }"
    else "function " + key + "() { [native code] }"
  }

  /** `table[name] || ''` as the object-literal lookup evaluates it: a name that is not
      a style but is an inherited key finds the inherited member, which is truthy. */
  function FragmentAsWritten(table: Style -> string, name: string): (r: string)
    ensures ParseStyle(name).Some? ==> r == Fragment(table, name)
    ensures name !in PrototypeKeys ==> r == Fragment(table, name)
    ensures ParseStyle(name).None? && name in PrototypeKeys ==> r == InheritedText(name)
  {
    match ParseStyle(name)
    case Some(s) => if table(s) != "" then table(s) else ""
    case None => if name in PrototypeKeys then InheritedText(name) else ""
  }

  /** The style name "constructor" yields a non-empty fragment from the lookup as
      written, while the intended lookup yields the empty fragment. */
  lemma {:induction false} InheritedKeyLeaksIntoPrompt(table: Style -> string)
    ensures FragmentAsWritten(table, "constructor") == "function Object() { [native code] }"
    ensures Fragment(table, "constructor") == ""
  {
    assert ParseStyle("constructor") == None by {
      assert "constructor"[0] != "Neon Glow"[0] && "constructor"[0] != "Dark Gold"[0];
      assert |"constructor"| != |"Cyberpunk Blue"| && |"constructor"| != |"Cosmic Purple"|;
    }
    assert "constructor" in PrototypeKeys;
  }

  /** `getStyleColor`, `colors[style] || '#ffffff'`, as intended: the accent colour of a
      style, `#ffffff` for any other name. */
  function StyleColor(name: string): (c: string)
    ensures ParseStyle(name).None? ==> c == "#ffffff"
    ensures ParseStyle(name) == Some(NeonGlow) ==> c == "#ff00ff"
    ensures ParseStyle(name) == Some(DarkGold) ==> c == "#ffd700"
    ensures ParseStyle(name) == Some(CyberpunkBlue) ==> c == "#00ffff"
    ensures ParseStyle(name) == Some(CosmicPurple) ==> c == "#8a2be2"
  {
    match ParseStyle(name)
    case Some(NeonGlow) => "#ff00ff"
    case Some(DarkGold) => "#ffd700"
    case Some(CyberpunkBlue) => "#00ffff"
    case Some(CosmicPurple) => "#8a2be2"
    case None => "#ffffff"
  }

  /** `getStyleColor` as the object-literal lookup evaluates it: an inherited key finds a
      function or the prototype object, which is truthy but no colour string (`None`). */
  function StyleColorAsWritten(name: string): (c: Option<string>)
    ensures name !in PrototypeKeys ==> c == Some(StyleColor(name))
  {
    if ParseStyle(name).None? && name in PrototypeKeys then None else Some(StyleColor(name))
  }

  /** The style name "constructor" makes the lookup as written return no colour at all,
      while the intended lookup returns the white default. */
  lemma {:induction false} InheritedKeyIsNoColour()
    ensures StyleColorAsWritten("constructor") == None
    ensures StyleColor("constructor") == "#ffffff"
  {
    assert ParseStyle("constructor") == None by {
      assert "constructor"[0] != "Neon Glow"[0] && "constructor"[0] != "Dark Gold"[0];
      assert |"constructor"| != |"Cyberpunk Blue"| && |"constructor"| != |"Cosmic Purple"|;
    }
    assert "constructor" in PrototypeKeys;
  }

  /** The legacy accessor keys are inherited too: as written, `__defineGetter__` puts
      that function's source text into the prompt, where the intended lookup gives `''`. */
  lemma {:induction false} AccessorKeyLeaksIntoPrompt(table: Style -> string)
    ensures FragmentAsWritten(table, "__defineGetter__") == InheritedText("__defineGetter__")
    ensures FragmentAsWritten(table, "__defineGetter__") != ""
    ensures Fragment(table, "__defineGetter__") == ""
  {
    assert ParseStyle("__defineGetter__") == None by {
      assert "__defineGetter__"[0] != "Neon Glow"[0] && "__defineGetter__"[0] != "Dark Gold"[0];
      assert "__defineGetter__"[0] != "Cyberpunk Blue"[0] && "__defineGetter__"[0] != "Cosmic Purple"[0];
    }
    assert PrototypeKeys[8] == "__defineGetter__";
  }

  /** As written, `__lookupSetter__` gives no colour, where the intended lookup gives
      `#ffffff`. */
  lemma {:induction false} AccessorKeyIsNoColour()
    ensures StyleColorAsWritten("__lookupSetter__") == None
    ensures StyleColor("__lookupSetter__") == "#ffffff"
  {
    assert ParseStyle("__lookupSetter__") == None by {
      assert "__lookupSetter__"[0] != "Neon Glow"[0] && "__lookupSetter__"[0] != "Dark Gold"[0];
      assert "__lookupSetter__"[0] != "Cyberpunk Blue"[0] && "__lookupSetter__"[0] != "Cosmic Purple"[0];
    }
    assert PrototypeKeys[11] == "__lookupSetter__";
  }
}
