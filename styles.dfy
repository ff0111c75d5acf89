/**
 * The overlay style record, its defaults and the rehydration of the style
 * store (src/app/store/style/style.store.ts).
 *
 * Each section of `STTStyle` is a map from field name to `StyleValue`, as the
 * JavaScript objects are: a persisted style may lack fields, and `boxStyle`
 * admits extra keys. The declared shape of each section is a map from field
 * name to the `StyleValueType` the interface gives it.
 */
module Styles {

  datatype StyleValueType = String | Pixels | Ms | Url

  /** `{type, value}`: the value is an opaque CSS string. */
  datatype StyleValue = StyleValue(valueType: StyleValueType, value: string)

  type Section = map<string, StyleValue>

  datatype STTStyle = STTStyle(
    boxStyle: Section,
    textStyle: Section,
    textStyleComposite: map<string, Section>,
    avatarStyle: Section)

  datatype StyleState = StyleState(currentStyle: STTStyle, templates: seq<STTStyle>)

  /** The declared fields of each section and the type tag each is declared with. */
  const BOX_STYLE_FIELDS: map<string, StyleValueType> := map[
    "backgroundColor" := String,
    "borderWidth" := Pixels,
    "borderColor" := String,
    "borderRadius" := Pixels,
    "transform" := String]

  const TEXT_STYLE_FIELDS: map<string, StyleValueType> := map[
    "color" := String,
    "fontSize" := Pixels,
    "fontWeight" := String,
    "textTransform" := String]

  const TEXT_SHADOW_FIELDS: map<string, StyleValueType> := map[
    "x" := Pixels,
    "y" := Pixels,
    "b" := Pixels,
    "color" := String]

  const COMPOSITE_GROUPS: map<string, map<string, StyleValueType>> := map["textShadow" := TEXT_SHADOW_FIELDS]

  const AVATAR_STYLE_FIELDS: map<string, StyleValueType> := map[
    "backgroundImage" := Url,
    "marginBottom" := Pixels,
    "marginRight" := Pixels,
    "animationName" := String,
    "animationDuration" := Ms]

  /** The default of each section of `STYLE_TEMPLATE`. */
  const BOX_STYLE_DEFAULTS: Section := map[
    "backgroundColor" := StyleValue(String, "transparent"),
    "borderRadius" := StyleValue(Pixels, "0"),
    "borderWidth" := StyleValue(Pixels, "0"),
    "borderColor" := StyleValue(String, "transparent"),
    "transform" := StyleValue(String, "scale(1)")]

  const TEXT_STYLE_DEFAULTS: Section := map[
    "color" := StyleValue(String, "white"),
    "fontSize" := StyleValue(Pixels, "18"),
    "fontWeight" := StyleValue(String, "normal"),
    "textTransform" := StyleValue(String, "none")]

  const TEXT_SHADOW_DEFAULTS: Section := map[
    "x" := StyleValue(Pixels, "0"),
    "y" := StyleValue(Pixels, "0"),
    "b" := StyleValue(Pixels, "2"),
    "color" := StyleValue(String, "black")]

  const AVATAR_STYLE_DEFAULTS: Section := map[
    "backgroundImage" := StyleValue(Url, ""),
    "marginBottom" := StyleValue(Pixels, "0"),
    "marginRight" := StyleValue(Pixels, "0"),
    "animationName" := StyleValue(String, "none"),
    "animationDuration" := StyleValue(Ms, "2000")]

  const STYLE_TEMPLATE: STTStyle := STTStyle(
    BOX_STYLE_DEFAULTS,
    TEXT_STYLE_DEFAULTS,
    map["textShadow" := TEXT_SHADOW_DEFAULTS],
    AVATAR_STYLE_DEFAULTS)

  const STATE_TEMPLATE: StyleState := StyleState(STYLE_TEMPLATE, [])

  /** Every field present in `s` carries the tag `fields` declares for it. */
  ghost predicate SectionTyped(s: Section, fields: map<string, StyleValueType>)
  {
    forall k :: k in s && k in fields ==> s[k].valueType == fields[k]
  }

  /** `s` has exactly the declared fields, each with its declared tag. */
  ghost predicate SectionHasShape(s: Section, fields: map<string, StyleValueType>)
  {
    s.Keys == fields.Keys && SectionTyped(s, fields)
  }

  /** Every field present in `style` carries its declared tag. */
  ghost predicate StyleTyped(style: STTStyle)
  {
    && SectionTyped(style.boxStyle, BOX_STYLE_FIELDS)
    && SectionTyped(style.textStyle, TEXT_STYLE_FIELDS)
    && (forall g :: g in style.textStyleComposite && g in COMPOSITE_GROUPS ==>
          SectionTyped(style.textStyleComposite[g], COMPOSITE_GROUPS[g]))
    && SectionTyped(style.avatarStyle, AVATAR_STYLE_FIELDS)
  }

  /** `style` has every declared field with its declared tag (box style may have more). */
  ghost predicate StyleComplete(style: STTStyle)
  {
    && StyleTyped(style)
    && BOX_STYLE_FIELDS.Keys <= style.boxStyle.Keys
    && TEXT_STYLE_FIELDS.Keys <= style.textStyle.Keys
    && (forall g :: g in COMPOSITE_GROUPS ==>
          g in style.textStyleComposite && COMPOSITE_GROUPS[g].Keys <= style.textStyleComposite[g].Keys)
    && AVATAR_STYLE_FIELDS.Keys <= style.avatarStyle.Keys
  }

  lemma TemplateBoxShape()
    ensures SectionHasShape(BOX_STYLE_DEFAULTS, BOX_STYLE_FIELDS)
  {
  }

  lemma TemplateTextShape()
    ensures SectionHasShape(TEXT_STYLE_DEFAULTS, TEXT_STYLE_FIELDS)
  {
  }

  lemma TemplateShadowShape()
    ensures SectionHasShape(TEXT_SHADOW_DEFAULTS, TEXT_SHADOW_FIELDS)
  {
  }

  lemma TemplateAvatarShape()
    ensures SectionHasShape(AVATAR_STYLE_DEFAULTS, AVATAR_STYLE_FIELDS)
  {
  }

  /** A non-negative decimal integer written with digits only. */
  predicate IsDecimal(s: string)
  {
    |s| > 0 && forall i :: 0 <= i < |s| ==> '0' <= s[i] <= '9'
  }

  /** A value is numeric in the sense its tag demands: `pixels` and `ms` hold decimal integers. */
  predicate NumericWhereTagged(v: StyleValue)
  {
    v.valueType in {Pixels, Ms} ==> IsDecimal(v.value)
  }

  predicate SectionNumeric(s: Section)
  {
    forall k :: k in s ==> NumericWhereTagged(s[k])
  }

  /** The `pixels` and `ms` defaults of each section are decimal integer strings. */
  lemma TemplateBoxNumbersAreDecimal()
    ensures SectionNumeric(BOX_STYLE_DEFAULTS)
  {
  }

  lemma TemplateTextNumbersAreDecimal()
    ensures SectionNumeric(TEXT_STYLE_DEFAULTS)
  {
  }

  lemma TemplateShadowNumbersAreDecimal()
    ensures SectionNumeric(TEXT_SHADOW_DEFAULTS)
  {
  }

  lemma TemplateAvatarNumbersAreDecimal()
    ensures SectionNumeric(AVATAR_STYLE_DEFAULTS)
  {
  }

  /** Every `pixels` and `ms` default of the template is a decimal integer string. */
  lemma TemplateNumbersAreDecimal()
    ensures SectionNumeric(STYLE_TEMPLATE.boxStyle)
    ensures SectionNumeric(STYLE_TEMPLATE.textStyle)
    ensures forall g :: g in STYLE_TEMPLATE.textStyleComposite ==> SectionNumeric(STYLE_TEMPLATE.textStyleComposite[g])
    ensures SectionNumeric(STYLE_TEMPLATE.avatarStyle)
  {
    TemplateBoxNumbersAreDecimal();
    TemplateTextNumbersAreDecimal();
    TemplateShadowNumbersAreDecimal();
    TemplateAvatarNumbersAreDecimal();
  }

  /**
   * `deepmerge(defaults, persisted)` on one section: a field the persisted
   * section has keeps its persisted value, a missing one takes the default.
   */
  function MergeSection(defaults: Section, persisted: Section): (r: Section)
    ensures r.Keys == defaults.Keys + persisted.Keys
    ensures forall k :: k in persisted ==> r[k] == persisted[k]
    ensures forall k :: k in defaults && k !in persisted ==> r[k] == defaults[k]
  {
    defaults + persisted
  }

  /** `deepmerge` on the composite groups: groups present on both sides are merged field by field. */
  function MergeGroups(defaults: map<string, Section>, persisted: map<string, Section>): (r: map<string, Section>)
    ensures r.Keys == defaults.Keys + persisted.Keys
    ensures forall g :: g in defaults && g in persisted ==> r[g] == MergeSection(defaults[g], persisted[g])
    ensures forall g :: g in persisted && g !in defaults ==> r[g] == persisted[g]
    ensures forall g :: g in defaults && g !in persisted ==> r[g] == defaults[g]
  {
    map g | g in defaults.Keys + persisted.Keys ::
      if g in defaults && g in persisted then MergeSection(defaults[g], persisted[g])
      else if g in persisted then persisted[g]
      else defaults[g]
  }

  /**
   * `merged` holds the fields of both sections, the persisted value where
   * there is one and the default value elsewhere.
   */
  ghost predicate SectionMerged(defaults: Section, persisted: Section, merged: Section) {
    && merged.Keys == defaults.Keys + persisted.Keys
    && (forall k :: k in persisted ==> merged[k] == persisted[k])
    && (forall k :: k in defaults && k !in persisted ==> merged[k] == defaults[k])
  }

  /**
   * `deepmerge(defaults, persisted)` on a whole style, section by section:
   * every field of either side is present, the persisted value wins, and a
   * composite group is merged field by field when both sides have it.
   */
  function MergeStyle(defaults: STTStyle, persisted: STTStyle): (r: STTStyle)
    ensures SectionMerged(defaults.boxStyle, persisted.boxStyle, r.boxStyle)
    ensures SectionMerged(defaults.textStyle, persisted.textStyle, r.textStyle)
    ensures SectionMerged(defaults.avatarStyle, persisted.avatarStyle, r.avatarStyle)
    ensures r.textStyleComposite.Keys == defaults.textStyleComposite.Keys + persisted.textStyleComposite.Keys
    ensures forall g :: g in defaults.textStyleComposite && g in persisted.textStyleComposite ==>
      SectionMerged(defaults.textStyleComposite[g], persisted.textStyleComposite[g], r.textStyleComposite[g])
    ensures forall g :: g in persisted.textStyleComposite && g !in defaults.textStyleComposite ==>
      r.textStyleComposite[g] == persisted.textStyleComposite[g]
    ensures forall g :: g in defaults.textStyleComposite && g !in persisted.textStyleComposite ==>
      r.textStyleComposite[g] == defaults.textStyleComposite[g]
  {
    STTStyle(
      MergeSection(defaults.boxStyle, persisted.boxStyle),
      MergeSection(defaults.textStyle, persisted.textStyle),
      MergeGroups(defaults.textStyleComposite, persisted.textStyleComposite),
      MergeSection(defaults.avatarStyle, persisted.avatarStyle))
  }

  /** The update the store makes once the persisted state is loaded. */
  function Rehydrate(s: StyleState): (r: StyleState)
    ensures r.currentStyle == MergeStyle(STYLE_TEMPLATE, s.currentStyle)
    ensures |r.templates| == |s.templates|
    ensures forall i :: 0 <= i < |s.templates| ==> r.templates[i] == MergeStyle(STYLE_TEMPLATE, s.templates[i])
  {
    StyleState(
      MergeStyle(STYLE_TEMPLATE, s.currentStyle),
      seq(|s.templates|, i requires 0 <= i < |s.templates| => MergeStyle(STYLE_TEMPLATE, s.templates[i])))
  }

  /**
   * Merging a section over defaults of the declared shape yields every
   * declared field; when the persisted fields carry their declared tags, so
   * does every field of the result.
   */
  lemma MergeSectionFills(defaults: Section, persisted: Section, fields: map<string, StyleValueType>)
    requires SectionHasShape(defaults, fields)
    ensures fields.Keys <= MergeSection(defaults, persisted).Keys
    ensures SectionTyped(persisted, fields) ==> SectionTyped(MergeSection(defaults, persisted), fields)
  {
  }

  /** Defaults with exactly the declared fields and tags, as the template has. */
  ghost predicate DeclaredShape(t: STTStyle)
  {
    && SectionHasShape(t.boxStyle, BOX_STYLE_FIELDS)
    && SectionHasShape(t.textStyle, TEXT_STYLE_FIELDS)
    && t.textStyleComposite.Keys == COMPOSITE_GROUPS.Keys
    && (forall g :: g in t.textStyleComposite ==> SectionHasShape(t.textStyleComposite[g], COMPOSITE_GROUPS[g]))
    && SectionHasShape(t.avatarStyle, AVATAR_STYLE_FIELDS)
  }

  lemma TemplateHasDeclaredShape()
    ensures DeclaredShape(STYLE_TEMPLATE)
  {
    TemplateBoxShape();
    TemplateTextShape();
    TemplateShadowShape();
    TemplateAvatarShape();
    assert COMPOSITE_GROUPS.Keys == {"textShadow"};
  }

  /**
   * Merging a persisted style whose fields carry their declared tags over
   * defaults of the declared shape gives every declared field, each with its
   * declared tag.
   */
  lemma {:induction false} MergeFillsDeclaredFields(defaults: STTStyle, persisted: STTStyle)
    requires DeclaredShape(defaults) && StyleTyped(persisted)
    ensures StyleComplete(MergeStyle(defaults, persisted))
  {
    var r := MergeStyle(defaults, persisted);
    MergeSectionFills(defaults.boxStyle, persisted.boxStyle, BOX_STYLE_FIELDS);
    MergeSectionFills(defaults.textStyle, persisted.textStyle, TEXT_STYLE_FIELDS);
    MergeSectionFills(defaults.avatarStyle, persisted.avatarStyle, AVATAR_STYLE_FIELDS);
    forall g | g in COMPOSITE_GROUPS
      ensures g in r.textStyleComposite && COMPOSITE_GROUPS[g].Keys <= r.textStyleComposite[g].Keys
      ensures SectionTyped(r.textStyleComposite[g], COMPOSITE_GROUPS[g])
    {
      if g in persisted.textStyleComposite {
        MergeSectionFills(defaults.textStyleComposite[g], persisted.textStyleComposite[g], COMPOSITE_GROUPS[g]);
      }
    }
  }

  /** Rehydration under the template fills every declared field of a well-tagged persisted style. */
  lemma MergeUnderTemplate(persisted: STTStyle)
    requires StyleTyped(persisted)
    ensures StyleComplete(MergeStyle(STYLE_TEMPLATE, persisted))
  {
    TemplateHasDeclaredShape();
    MergeFillsDeclaredFields(STYLE_TEMPLATE, persisted);
  }

  /** Merging a merged section under the same defaults changes nothing. */
  lemma MergeSectionIdempotent(defaults: Section, persisted: Section)
    ensures MergeSection(defaults, MergeSection(defaults, persisted)) == MergeSection(defaults, persisted)
  {
    var once := MergeSection(defaults, persisted);
    assert MergeSection(defaults, once) == once;
  }

  /** Merging merged groups under the same defaults changes nothing. */
  lemma {:induction false} MergeGroupsIdempotent(defaults: map<string, Section>, persisted: map<string, Section>)
    ensures MergeGroups(defaults, MergeGroups(defaults, persisted)) == MergeGroups(defaults, persisted)
  {
    var once := MergeGroups(defaults, persisted);
    var twice := MergeGroups(defaults, once);
    forall g | g in twice
      ensures twice[g] == once[g]
    {
      if g in defaults && g in persisted {
        MergeSectionIdempotent(defaults[g], persisted[g]);
      } else if g in defaults {
        assert MergeSection(defaults[g], defaults[g]) == defaults[g];
      }
    }
    assert twice == once;
  }

  /** Merging a merged style under the same defaults changes nothing. */
  lemma {:induction false} MergeIdempotent(defaults: STTStyle, persisted: STTStyle)
    ensures MergeStyle(defaults, MergeStyle(defaults, persisted)) == MergeStyle(defaults, persisted)
  {
    MergeSectionIdempotent(defaults.boxStyle, persisted.boxStyle);
    MergeSectionIdempotent(defaults.textStyle, persisted.textStyle);
    MergeGroupsIdempotent(defaults.textStyleComposite, persisted.textStyleComposite);
    MergeSectionIdempotent(defaults.avatarStyle, persisted.avatarStyle);
  }

  /** A style merged over itself is unchanged. */
  lemma {:induction false} MergeWithSelf(t: STTStyle)
    ensures MergeStyle(t, t) == t
  {
    var c := t.textStyleComposite;
    forall g | g in c
      ensures MergeGroups(c, c)[g] == c[g]
    {
      assert MergeSection(c[g], c[g]) == c[g];
    }
    assert MergeGroups(c, c) == c;
  }

  /** Rehydrating twice is rehydrating once. */
  lemma {:induction false} RehydrateIdempotent(s: StyleState)
    ensures Rehydrate(Rehydrate(s)) == Rehydrate(s)
  {
    var once := Rehydrate(s);
    var twice := Rehydrate(once);
    MergeIdempotent(STYLE_TEMPLATE, s.currentStyle);
    forall i | 0 <= i < |s.templates|
      ensures twice.templates[i] == once.templates[i]
    {
      MergeIdempotent(STYLE_TEMPLATE, s.templates[i]);
    }
  }

  /** The initial state is already rehydrated. */
  lemma InitialStateRehydrated()
    ensures Rehydrate(STATE_TEMPLATE) == STATE_TEMPLATE
  {
    MergeWithSelf(STYLE_TEMPLATE);
  }

  /** The style store: the state the persistence layer loads into and the components edit. */
  class StyleStore {
    var state: StyleState

    /** `super(STATE_TEMPLATE)`: the template style and no saved templates. */
    constructor()
      ensures state.currentStyle == STYLE_TEMPLATE && state.templates == []
    {
      state := STATE_TEMPLATE;
    }

    /** `update`: replace the state. */
    method Update(next: StyleState)
      modifies this
      ensures state == next
    {
      state := next;
    }

    /**
     * The `selectPersistStateInit` subscription: the current style and each
     * saved template, merged under the template, in one update.
     */
    method OnPersistStateInit()
      modifies this
      ensures state == Rehydrate(old(state))
      ensures state.currentStyle == MergeStyle(STYLE_TEMPLATE, old(state.currentStyle))
      ensures |state.templates| == |old(state.templates)|
      ensures forall i :: 0 <= i < |state.templates| ==>
                state.templates[i] == MergeStyle(STYLE_TEMPLATE, old(state.templates[i]))
    {
      var current := MergeStyle(STYLE_TEMPLATE, state.currentStyle);
      var templates := seq(|state.templates|, i requires 0 <= i < |state.templates| reads this =>
                            MergeStyle(STYLE_TEMPLATE, state.templates[i]));
      Update(StyleState(current, templates));
    }
  }
}
