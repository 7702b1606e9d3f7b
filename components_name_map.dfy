/** The constant tag tables: mini-program tag name to the web tag or React
    component that replaces it. The same three tables and their merge appear in
    src/transformer/script/componentsNameMap.ts and, as private copies, in
    src/transformer/script/ordinary.ts; they are modelled once, here. */
module ComponentsNameMap {
  import opened Options

  /** Tags rendered by a plain HTML element; no import is needed. */
  const WebComponentsMap: map<string, string> := map[
    "text" := "span",
    "view" := "div",
    "stack" := "div",
    "block" := "div",
    "web-view" := "iframe",
    "scroll-view" := "div"
  ]

  /** Tags implemented by the schnee-ui component package. */
  const NativeComponentsMap: map<string, string> := map[
    "button" := "Button",
    "checkbox" := "Checkbox",
    "icon" := "Icon",
    "progress" := "Progress",
    "radio" := "Radio",
    "scorll-view" := "ScorllView",
    "switch" := "Switch",
    "checkbox-group" := "CheckboxGroup",
    "label" := "Label",
    "radio-group" := "RadioGroup"
  ]

  /** Tags implemented by the project's own internal components. */
  const InternalComponentsMap: map<string, string> := map[
    "image" := "Image",
    "slider" := "Slider",
    "textarea" := "Textarea",
    "swiper" := "Swiper",
    "swiper-item" := "SwiperItem",
    "rich-text" := "RichText",
    "audio" := "Audio",
    "picker" := "Picker"
  ]

  /** `{...web, ...native, ...internal}`: on a shared key the later table would win. */
  const ComponentsNameMap: map<string, string> :=
    WebComponentsMap + NativeComponentsMap + InternalComponentsMap

  lemma WebNativeDisjoint()
    ensures WebComponentsMap.Keys !! NativeComponentsMap.Keys
  {
    assert WebComponentsMap.Keys <= {"text", "view", "stack", "block", "web-view", "scroll-view"};
    assert NativeComponentsMap.Keys <= {"button", "checkbox", "icon", "progress", "radio",
      "scorll-view", "switch", "checkbox-group", "label", "radio-group"};
  }

  lemma WebInternalDisjoint()
    ensures WebComponentsMap.Keys !! InternalComponentsMap.Keys
  {
    assert WebComponentsMap.Keys <= {"text", "view", "stack", "block", "web-view", "scroll-view"};
    assert InternalComponentsMap.Keys <= {"image", "slider", "textarea", "swiper", "swiper-item",
      "rich-text", "audio", "picker"};
  }

  lemma NativeInternalDisjoint()
    ensures NativeComponentsMap.Keys !! InternalComponentsMap.Keys
  {
    assert NativeComponentsMap.Keys <= {"button", "checkbox", "icon", "progress", "radio",
      "scorll-view", "switch", "checkbox-group", "label", "radio-group"};
    assert InternalComponentsMap.Keys <= {"image", "slider", "textarea", "swiper", "swiper-item",
      "rich-text", "audio", "picker"};
  }

  /** No tag name belongs to two tables. */
  lemma TablesDisjoint()
    ensures WebComponentsMap.Keys !! NativeComponentsMap.Keys
    ensures WebComponentsMap.Keys !! InternalComponentsMap.Keys
    ensures NativeComponentsMap.Keys !! InternalComponentsMap.Keys
  {
    WebNativeDisjoint();
    WebInternalDisjoint();
    NativeInternalDisjoint();
  }

  /** Tag names start with a lower-case letter. */
  predicate LowerInitial(s: string) { |s| > 0 && 'a' <= s[0] <= 'z' }

  /** The three web replacements, and every capitalised name, are no tag name. */
  predicate NotATagName(v: string) { !LowerInitial(v) || v == "span" || v == "div" || v == "iframe" }

  predicate IsTagName(k: string) { LowerInitial(k) && k != "span" && k != "div" && k != "iframe" }

  lemma WebTagNames(k: string)
    requires k in WebComponentsMap
    ensures IsTagName(k)
  {
    assert WebComponentsMap.Keys <= {"text", "view", "stack", "block", "web-view", "scroll-view"};
  }

  lemma NativeTagNames(k: string)
    requires k in NativeComponentsMap
    ensures IsTagName(k)
  {
    assert NativeComponentsMap.Keys <= {"button", "checkbox", "icon", "progress", "radio",
      "scorll-view", "switch", "checkbox-group", "label", "radio-group"};
  }

  lemma InternalTagNames(k: string)
    requires k in InternalComponentsMap
    ensures IsTagName(k)
  {
    assert InternalComponentsMap.Keys <= {"image", "slider", "textarea", "swiper", "swiper-item",
      "rich-text", "audio", "picker"};
  }

  lemma WebReplacements(k: string)
    requires k in WebComponentsMap
    ensures NotATagName(WebComponentsMap[k])
  {
    assert WebComponentsMap.Values <= {"span", "div", "iframe"};
    assert WebComponentsMap[k] in WebComponentsMap.Values;
  }

  lemma NativeReplacements(k: string)
    requires k in NativeComponentsMap
    ensures NotATagName(NativeComponentsMap[k])
  {
    assert NativeComponentsMap.Values <= {"Button", "Checkbox", "Icon", "Progress", "Radio",
      "ScorllView", "Switch", "CheckboxGroup", "Label", "RadioGroup"};
    assert NativeComponentsMap[k] in NativeComponentsMap.Values;
  }

  lemma InternalReplacements(k: string)
    requires k in InternalComponentsMap
    ensures NotATagName(InternalComponentsMap[k])
  {
    assert InternalComponentsMap.Values <= {"Image", "Slider", "Textarea", "Swiper", "SwiperItem",
      "RichText", "Audio", "Picker"};
    assert InternalComponentsMap[k] in InternalComponentsMap.Values;
  }

  /** `componentsNameMap[name]`: the replacement, or undefined. Because the tables
      are disjoint, the merged table agrees with whichever table holds the name. */
  function Lookup(name: string): (r: Option<string>)
    ensures r.Some? <==>
      name in WebComponentsMap || name in NativeComponentsMap || name in InternalComponentsMap
    ensures name in WebComponentsMap ==> r == Some(WebComponentsMap[name])
    ensures name in NativeComponentsMap ==> r == Some(NativeComponentsMap[name])
    ensures name in InternalComponentsMap ==> r == Some(InternalComponentsMap[name])
  {
    TablesDisjoint();
    if name in ComponentsNameMap then Some(ComponentsNameMap[name]) else None
  }

  /** No replacement is itself a tag name of the tables, so renaming a renamed
      tag finds nothing. */
  lemma ReplacementsAreNotKeys(name: string)
    requires Lookup(name).Some?
    ensures Lookup(Lookup(name).value) == None
  {
    var v := Lookup(name).value;
    if name in WebComponentsMap {
      WebReplacements(name);
    } else if name in NativeComponentsMap {
      NativeReplacements(name);
    } else {
      InternalReplacements(name);
    }
    if v in WebComponentsMap {
      WebTagNames(v);
    } else if v in NativeComponentsMap {
      NativeTagNames(v);
    } else if v in InternalComponentsMap {
      InternalTagNames(v);
    }
  }

  /** Entries the rewrite relies on: `switch` needs a native import, `image` an
      internal one. */
  lemma ImportedEntries()
    ensures "switch" in NativeComponentsMap && Lookup("switch") == Some("Switch")
    ensures "image" in InternalComponentsMap && Lookup("image") == Some("Image")
  {
  }

  /** The plain web renames. */
  lemma WebEntries()
    ensures Lookup("view") == Some("div") && Lookup("stack") == Some("div")
    ensures Lookup("block") == Some("div") && Lookup("scroll-view") == Some("div")
    ensures Lookup("text") == Some("span") && Lookup("web-view") == Some("iframe")
  {
  }

  /** `scroll-view` (web) and the misspelt `scorll-view` (native) are two keys. */
  lemma ScrollViewSpellings()
    ensures "scroll-view" in WebComponentsMap && "scroll-view" !in NativeComponentsMap
    ensures "scorll-view" in NativeComponentsMap && "scorll-view" !in WebComponentsMap
    ensures Lookup("scorll-view") == Some("ScorllView")
  {
    WebNativeDisjoint();
  }
}
