/**
 * The logic of `SimulationConclusion.tsx`: which icon a coaching point
 * shows, and the two display guards.
 */
module ConclusionView {
  import opened Wrappers
  import opened JsText
  import opened Types
  import opened ImageFetch

  /** The icon components the map can name. */
  datatype Icon = MapIcon | BrainIcon | EyeIcon | LightbulbIcon | UserGroupIcon | QuestionMarkCircleIcon | SparklesIcon

  /** The own keys of `iconMap`. */
  function OwnIcon(key: string): Option<Icon>
  {
    if key == "Adventure" then Some(MapIcon)
    else if key == "ProblemSolving" then Some(BrainIcon)
    else if key == "Focus" then Some(EyeIcon)
    else if key == "Creativity" then Some(LightbulbIcon)
    else if key == "Teamwork" then Some(UserGroupIcon)
    else if key == "Curiosity" then Some(QuestionMarkCircleIcon)
    else if key == "Default" then Some(SparklesIcon)
    else None
  }

  /**
   * The properties every plain JavaScript object inherits from
   * `Object.prototype` (section 20.1.3 of ECMA-262, with the legacy
   * accessors of Annex B.2.2); indexing `iconMap` with one of them yields
   * that inherited value, which is truthy.
   */
  const InheritedKeys: set<string> := {
    "constructor", "hasOwnProperty", "isPrototypeOf", "propertyIsEnumerable",
    "toLocaleString", "toString", "valueOf", "__proto__",
    "__defineGetter__", "__defineSetter__", "__lookupGetter__", "__lookupSetter__"}

  /** What `iconMap[key] || iconMap.Default` yields: an icon, or an inherited member that is not one. */
  datatype Lookup = IconComponent(icon: Icon) | PrototypeMember(name: string)

  /**
   * `getIcon` as written: white space removed, then an object-literal
   * index with a fallback. No own key of the map names an inherited
   * member, so testing the inherited names first changes nothing.
   */
  function GetIconAsWritten(iconKey: string): Lookup
  {
    var key := RemoveSpaces(iconKey);
    if key in InheritedKeys then PrototypeMember(key)
    else match OwnIcon(key)
      case Some(icon) => IconComponent(icon)
      case None => IconComponent(SparklesIcon)
  }

  /**
   * A key that names an `Object.prototype` member once its white space is
   * gone does not fall back to the default icon: "constructor" is one.
   */
  lemma ConstructorKeyIsNotAnIcon()
    ensures GetIconAsWritten("constructor") == PrototypeMember("constructor")
  {
    ConstructorHasNoSpace();
    RemoveSpacesKeepsWords("constructor");
    assert "constructor" in InheritedKeys;
  }

  lemma ConstructorHasNoSpace()
    ensures NoSpace("constructor")
  {
    LettersHaveNoSpace("constructor");
  }

  /**
   * `getIcon` as intended: only the map's own keys name an icon, every
   * other key shows the default sparkles.
   */
  function GetIcon(iconKey: string): Icon
  {
    match OwnIcon(RemoveSpaces(iconKey))
    case Some(icon) => icon
    case None => SparklesIcon
  }

  /** The two agree on every key that does not name an inherited member. */
  lemma GetIconAgrees(iconKey: string)
    requires RemoveSpaces(iconKey) !in InheritedKeys
    ensures GetIconAsWritten(iconKey) == IconComponent(GetIcon(iconKey))
  {
  }

  /** A key without white space is looked up as it is, and only the map's own keys name an icon other than the default. */
  lemma GetIconOfWord(key: string)
    requires NoSpace(key)
    ensures GetIcon(key) == if OwnIcon(key).Some? then OwnIcon(key).value else SparklesIcon
  {
    RemoveSpacesKeepsWords(key);
  }

  /** White space anywhere in a key does not change its icon. */
  lemma GetIconIgnoresSpaces(a: string, ws: string, b: string)
    requires forall i :: 0 <= i < |ws| ==> IsJsSpace(ws[i])
    ensures GetIcon(a + ws + b) == GetIcon(a + b)
  {
    RemoveSpacesAppend(a + ws, b);
    RemoveSpacesAppend(a, ws);
    RemoveSpacesAppend(a, b);
    RemoveSpacesOfBlank(ws);
    assert RemoveSpaces(a) + [] == RemoveSpaces(a);
  }

  /**
   * The six keywords the debrief asks for each name an icon of their own,
   * none of them the default, and "Default" names the default.
   */
  lemma KeywordIcons()
    ensures OwnIcon("Adventure") == Some(MapIcon)
    ensures OwnIcon("ProblemSolving") == Some(BrainIcon)
    ensures OwnIcon("Focus") == Some(EyeIcon)
    ensures OwnIcon("Creativity") == Some(LightbulbIcon)
    ensures OwnIcon("Teamwork") == Some(UserGroupIcon)
    ensures OwnIcon("Curiosity") == Some(QuestionMarkCircleIcon)
    ensures OwnIcon("Default") == Some(SparklesIcon)
  {
  }

  /** Letter case matters: a lower-case keyword gets the default icon. */
  lemma LowerCaseKeywordIcon()
    ensures GetIcon("focus") == SparklesIcon
  {
    FocusHasNoSpace();
    GetIconOfWord("focus");
  }

  lemma FocusHasNoSpace()
    ensures NoSpace("focus")
  {
    LettersHaveNoSpace("focus");
  }

  /** The "New Strengths Unlocked" block is shown only for a non-empty list. */
  predicate ShowsUnlockedSkills(c: Conclusion)
  {
    |c.unlockedSkills| > 0
  }

  /** The image is shown for a non-empty URL; otherwise the placeholder. */
  predicate ShowsImage(c: Conclusion)
  {
    c.imageUrl != ""
  }

  /**
   * The debrief image comes from one `generateImage` run: the placeholder
   * shows exactly when the run's last call did not produce an image, and
   * otherwise the picture is that call's PNG data URL.
   */
  lemma PlaceholderIffNoImage(provider: nat -> ImageOutcome, jitter: nat -> int, c: Conclusion)
    requires forall k :: 0 <= jitter(k) < 1000
    requires c.imageUrl == Run(provider, jitter, DefaultMaxRetries, 0).url
    ensures var f := Run(provider, jitter, DefaultMaxRetries, 0);
      && 1 <= f.calls <= DefaultMaxRetries
      && (ShowsImage(c) <==> provider(f.calls - 1).Generated?)
      && (ShowsImage(c) ==> c.imageUrl == DataUrlPrefix + provider(f.calls - 1).imageBytes)
  {
    RunFacts(provider, jitter, DefaultMaxRetries, 0);
  }
}
