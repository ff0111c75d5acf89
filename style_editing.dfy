/**
 * The style service (src/app/store/style/style.service.ts): edits to the
 * current style made from the editor, and the exchange of the current style
 * over the peer network.
 *
 * An edit assigns the `value` of each listed field inside one store update.
 * A listed field that the section lacks makes that assignment throw; the
 * update is then discarded, the exception reaches the caller and nothing is
 * sent. Here the edit returns `None` in that case and the service methods
 * report `ok == false`.
 */
module StyleEditing {
  import opened Options
  import opened Styles
  import opened PeerNetwork

  /**
   * The effect of `for (key in values) section[key].value = values[key]`:
   * `None` when some listed key is missing, otherwise the section with the
   * listed values replaced and every type tag and unlisted field kept.
   */
  function SetValues(section: Section, values: map<string, string>): (r: Option<Section>)
    ensures r.None? <==> exists k :: k in values && k !in section
    ensures r.Some? ==> r.value.Keys == section.Keys
    ensures r.Some? ==> forall k :: k in section ==>
              r.value[k].valueType == section[k].valueType
              && r.value[k].value == (if k in values then values[k] else section[k].value)
  {
    if values.Keys <= section.Keys then
      Some(map k | k in section :: if k in values then section[k].(value := values[k]) else section[k])
    else
      None
  }

  /** `SetValues` as the loop runs it: one listed key at a time, in no fixed order. */
  method AssignValues(section: Section, values: map<string, string>) returns (r: Option<Section>)
    ensures r == SetValues(section, values)
  {
    var draft := section;
    var rest := values;
    while rest != map[]
      invariant rest.Keys <= values.Keys
      invariant forall k :: k in rest ==> rest[k] == values[k]
      invariant forall k :: k in values && k !in rest ==> k in section
      invariant draft.Keys == section.Keys
      invariant forall k :: k in section ==>
                  draft[k] == if k in values && k !in rest then section[k].(value := values[k]) else section[k]
      decreases |rest|
    {
      var k :| k in rest;
      if k !in draft {
        return None;
      }
      draft := draft[k := draft[k].(value := rest[k])];
      rest := rest - {k};
    }
    assert values.Keys <= section.Keys;
    assert draft == SetValues(section, values).value;
    r := Some(draft);
  }

  /**
   * The edit of one composite group: no listed values leave the groups as
   * they are, even when the group is missing; otherwise a missing group or a
   * missing field fails.
   */
  function SetGroupValues(groups: map<string, Section>, key: string, values: map<string, string>): (r: Option<map<string, Section>>)
    ensures values == map[] ==> r == Some(groups)
    ensures values != map[] && key !in groups ==> r.None?
    ensures key in groups ==> (r.Some? <==> SetValues(groups[key], values).Some?)
    ensures r.Some? ==> r.value.Keys == groups.Keys
    ensures r.Some? ==> forall g :: g in groups && g != key ==> r.value[g] == groups[g]
    ensures r.Some? && key in groups ==> r.value[key] == SetValues(groups[key], values).value
  {
    if values == map[] then
      Some(groups)
    else if key !in groups then
      None
    else
      match SetValues(groups[key], values)
      case None => None
      case Some(s) => Some(groups[key := s])
  }

  /** `UpdateBoxStyle`'s edit of a style. */
  function EditBox(style: STTStyle, values: map<string, string>): (r: Option<STTStyle>)
    ensures r.Some? <==> values.Keys <= style.boxStyle.Keys
    ensures r.Some? ==> r.value == style.(boxStyle := SetValues(style.boxStyle, values).value)
  {
    match SetValues(style.boxStyle, values)
    case None => None
    case Some(s) => Some(style.(boxStyle := s))
  }

  /** `UpdateTextStyle`'s edit of a style. */
  function EditText(style: STTStyle, values: map<string, string>): (r: Option<STTStyle>)
    ensures r.Some? <==> values.Keys <= style.textStyle.Keys
    ensures r.Some? ==> r.value == style.(textStyle := SetValues(style.textStyle, values).value)
  {
    match SetValues(style.textStyle, values)
    case None => None
    case Some(s) => Some(style.(textStyle := s))
  }

  /** `UpdateTextComposite`'s edit of a style. */
  function EditComposite(style: STTStyle, key: string, values: map<string, string>): (r: Option<STTStyle>)
    ensures r.Some? <==> (values == map[] || (key in style.textStyleComposite && values.Keys <= style.textStyleComposite[key].Keys))
    ensures r.Some? ==> r.value == style.(textStyleComposite := SetGroupValues(style.textStyleComposite, key, values).value)
  {
    match SetGroupValues(style.textStyleComposite, key, values)
    case None => None
    case Some(g) => Some(style.(textStyleComposite := g))
  }

  /** Repeating a successful edit changes nothing more. */
  lemma SetValuesIdempotent(section: Section, values: map<string, string>)
    requires SetValues(section, values).Some?
    ensures SetValues(SetValues(section, values).value, values) == SetValues(section, values)
  {
    var once := SetValues(section, values).value;
    assert SetValues(once, values).value == once;
  }

  /** Repeating a successful `UpdateBoxStyle` edit changes nothing more. */
  lemma {:induction false} EditBoxIdempotent(style: STTStyle, values: map<string, string>)
    requires EditBox(style, values).Some?
    ensures EditBox(EditBox(style, values).value, values) == EditBox(style, values)
  {
    SetValuesIdempotent(style.boxStyle, values);
  }

  /** Repeating a successful `UpdateTextStyle` edit changes nothing more. */
  lemma {:induction false} EditTextIdempotent(style: STTStyle, values: map<string, string>)
    requires EditText(style, values).Some?
    ensures EditText(EditText(style, values).value, values) == EditText(style, values)
  {
    SetValuesIdempotent(style.textStyle, values);
  }

  /** Repeating a successful `UpdateTextComposite` edit changes nothing more. */
  lemma {:induction false} EditCompositeIdempotent(style: STTStyle, key: string, values: map<string, string>)
    requires EditComposite(style, key, values).Some?
    ensures EditComposite(EditComposite(style, key, values).value, key, values) == EditComposite(style, key, values)
  {
    if values != map[] {
      var once := EditComposite(style, key, values).value.textStyleComposite;
      SetValuesIdempotent(style.textStyleComposite[key], values);
      assert once[key := SetValues(once[key], values).value] == once;
    }
  }

  /** Two successive edits are one edit with the later values taking precedence. */
  lemma SetValuesCompose(section: Section, first: map<string, string>, second: map<string, string>)
    requires SetValues(section, first).Some?
    ensures SetValues(SetValues(section, first).value, second) == SetValues(section, first + second)
  {
    var once := SetValues(section, first).value;
    if SetValues(once, second).Some? {
      assert SetValues(once, second).value == SetValues(section, first + second).value;
    }
  }

  /** An edit keeps the section's fields and each field's tag. */
  lemma SetValuesKeepsTags(section: Section, values: map<string, string>, fields: map<string, StyleValueType>)
    requires SetValues(section, values).Some?
    ensures SetValues(section, values).value.Keys == section.Keys
    ensures SectionTyped(section, fields) ==> SectionTyped(SetValues(section, values).value, fields)
  {
  }

  /** A successful box or text edit keeps a complete style complete. */
  lemma {:induction false} EditsKeepDeclaredShape(style: STTStyle, values: map<string, string>)
    requires StyleComplete(style)
    ensures EditBox(style, values).Some? ==> StyleComplete(EditBox(style, values).value)
    ensures EditText(style, values).Some? ==> StyleComplete(EditText(style, values).value)
  {
    if EditBox(style, values).Some? {
      SetValuesKeepsTags(style.boxStyle, values, BOX_STYLE_FIELDS);
    }
    if EditText(style, values).Some? {
      SetValuesKeepsTags(style.textStyle, values, TEXT_STYLE_FIELDS);
    }
  }

  /** A successful composite edit keeps a complete style complete. */
  lemma {:induction false} CompositeEditKeepsDeclaredShape(style: STTStyle, key: string, values: map<string, string>)
    requires StyleComplete(style)
    ensures EditComposite(style, key, values).Some? ==> StyleComplete(EditComposite(style, key, values).value)
  {
    var r := EditComposite(style, key, values);
    if r.Some? && values != map[] {
      var before := style.textStyleComposite;
      var after := r.value.textStyleComposite;
      forall g | g in COMPOSITE_GROUPS
        ensures g in after && COMPOSITE_GROUPS[g].Keys <= after[g].Keys
        ensures SectionTyped(after[g], COMPOSITE_GROUPS[g])
      {
        if g == key {
          SetValuesKeepsTags(before[g], values, COMPOSITE_GROUPS[g]);
        } else {
          assert after[g] == before[g];
        }
      }
    }
  }

  /**
   * The service. It subscribes to the network's `messages$` and
   * `onClientConnected$`; those subscriptions are `OnMessage` and
   * `OnClientConnected`, called on each emission.
   */
  class StyleService {
    const store: StyleStore
    const net: NetworkService<STTStyle>

    constructor(store: StyleStore, net: NetworkService<STTStyle>)
      ensures this.store == store && this.net == net
    {
      this.store := store;
      this.net := net;
    }

    /** `SendUpdatedStyle`: the current style goes to every connection the network would send to. */
    method SendUpdatedStyle()
      requires net.Valid()
      modifies net
      ensures net.Valid() && net.Session() == old(net.Session()) && unchanged(store)
      ensures SendRecorded(old(net.log), net.log, Message("style", store.state.currentStyle), old(net.FanOutTargets()))
    {
      net.SendMessage(Message("style", store.state.currentStyle));
    }

    /** `UpdateStyle`: adopt a received style as the current one, keeping the templates. */
    method UpdateStyle(style: STTStyle)
      modifies store
      ensures store.state == old(store.state).(currentStyle := style)
    {
      store.Update(store.state.(currentStyle := style));
    }

    /** A message from the network: a `style` message replaces the current style and is not sent on. */
    method OnMessage(m: Message<STTStyle>)
      modifies store
      ensures store.state == if m.messageType == "style" then old(store.state).(currentStyle := m.data) else old(store.state)
      ensures unchanged(net)
    {
      if m.messageType == "style" {
        UpdateStyle(m.data);
      }
    }

    /** A client has joined: send it (and every other connection) the current style. */
    method OnClientConnected()
      requires net.Valid()
      modifies net
      ensures net.Valid() && net.Session() == old(net.Session()) && unchanged(store)
      ensures SendRecorded(old(net.log), net.log, Message("style", store.state.currentStyle), old(net.FanOutTargets()))
    {
      SendUpdatedStyle();
    }

    /**
     * `UpdateBoxStyle`: on success the box section is edited and the new
     * style sent; on a missing field nothing changes and nothing is sent.
     */
    method UpdateBoxStyle(values: map<string, string>) returns (ok: bool)
      requires net.Valid()
      modifies store, net
      ensures net.Valid() && net.Session() == old(net.Session())
      ensures ok <==> EditBox(old(store.state.currentStyle), values).Some?
      ensures ok ==> store.state == old(store.state).(currentStyle := EditBox(old(store.state.currentStyle), values).value)
      ensures ok ==> SendRecorded(old(net.log), net.log, Message("style", store.state.currentStyle), old(net.FanOutTargets()))
      ensures !ok ==> store.state == old(store.state) && net.log == old(net.log)
    {
      var edited := AssignValues(store.state.currentStyle.boxStyle, values);
      ok := edited.Some?;
      if ok {
        store.Update(store.state.(currentStyle := store.state.currentStyle.(boxStyle := edited.value)));
        SendUpdatedStyle();
      }
    }

    /** `UpdateTextStyle`: as `UpdateBoxStyle`, on the text section. */
    method UpdateTextStyle(values: map<string, string>) returns (ok: bool)
      requires net.Valid()
      modifies store, net
      ensures net.Valid() && net.Session() == old(net.Session())
      ensures ok <==> EditText(old(store.state.currentStyle), values).Some?
      ensures ok ==> store.state == old(store.state).(currentStyle := EditText(old(store.state.currentStyle), values).value)
      ensures ok ==> SendRecorded(old(net.log), net.log, Message("style", store.state.currentStyle), old(net.FanOutTargets()))
      ensures !ok ==> store.state == old(store.state) && net.log == old(net.log)
    {
      var edited := AssignValues(store.state.currentStyle.textStyle, values);
      ok := edited.Some?;
      if ok {
        store.Update(store.state.(currentStyle := store.state.currentStyle.(textStyle := edited.value)));
        SendUpdatedStyle();
      }
    }

    /** `UpdateTextComposite`: as `UpdateBoxStyle`, on one group of the composite section. */
    method UpdateTextComposite(key: string, values: map<string, string>) returns (ok: bool)
      requires net.Valid()
      modifies store, net
      ensures net.Valid() && net.Session() == old(net.Session())
      ensures ok <==> EditComposite(old(store.state.currentStyle), key, values).Some?
      ensures ok ==> store.state == old(store.state).(currentStyle := EditComposite(old(store.state.currentStyle), key, values).value)
      ensures ok ==> SendRecorded(old(net.log), net.log, Message("style", store.state.currentStyle), old(net.FanOutTargets()))
      ensures !ok ==> store.state == old(store.state) && net.log == old(net.log)
    {
      var groups := store.state.currentStyle.textStyleComposite;
      if values == map[] {
        ok := true;
      } else if key !in groups {
        ok := false;
      } else {
        var edited := AssignValues(groups[key], values);
        ok := edited.Some?;
        if ok {
          groups := groups[key := edited.value];
        }
      }
      if ok {
        store.Update(store.state.(currentStyle := store.state.currentStyle.(textStyleComposite := groups)));
        SendUpdatedStyle();
      }
    }
  }

  /**
   * A successful edit on the host reaches a client: every delivery the edit
   * makes carries the host's new style, and a client that receives it holds
   * the same style, with its own saved templates untouched.
   */
  method EditReachesClient(host: StyleService, client: StyleService, values: map<string, string>) returns (ok: bool)
    requires host.net.Valid() && host.store != client.store
    modifies host.store, host.net, client.store
    ensures ok <==> EditBox(old(host.store.state.currentStyle), values).Some?
    ensures ok ==> client.store.state.currentStyle == EditBox(old(host.store.state.currentStyle), values).value
    ensures ok ==> client.store.state.currentStyle == host.store.state.currentStyle
    ensures ok ==> client.store.state.templates == old(client.store.state.templates)
    ensures ok ==> forall i :: |old(host.net.log.sent)| <= i < |host.net.log.sent| ==>
              host.net.log.sent[i].message == Message("style", client.store.state.currentStyle)
    ensures !ok ==> unchanged(client.store) && host.net.log == old(host.net.log)
  {
    ok := host.UpdateBoxStyle(values);
    if ok {
      ghost var sent := host.net.log.sent;
      client.OnMessage(Message("style", host.store.state.currentStyle));
      assert host.net.log.sent == sent;
    }
  }
}
