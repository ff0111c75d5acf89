# simple-obs-stt: peer session and overlay style, in Dafny

This project models the core of simple-obs-stt, a speech-to-text overlay for
OBS. One instance runs as the host; other instances connect to it as
clients over PeerJS. The host's editor changes the look of the overlay, and
every change is sent to every connected client.

The model covers three source files.

- `PeerNetwork` (`network.dfy`) models `NetworkService`
  (src/app/store/network/network.service.ts), the class that owns the PeerJS
  peer and the client's connection to the host.
  - State:
    - The network store is a field.
    - PeerJS peers and data connections are records in two arenas, `peers`
      and `conns`. The "current" peer and connection are indices into them.
      The invariant `Valid` keeps these indices in range, and every
      connection id listed in any peer's connection map too.
    - The listeners that the source's closures register are recorded on
      those records. So every PeerJS event is a method (`OnPeerOpen`,
      `OnConnClose`, …) that runs exactly the listeners of the object that
      fires it. That object may be one the service already let go of.
    - The ghost record `log` collects what the service emits: store updates,
      `SendMessage` calls, each `send` on a connection, `messages$` and
      `onClientConnected$` emissions, and how `StartHost` ends.
  - Properties:
    - `SendMessage` sends to every connection listed under every remote id,
      once per listing, and to nothing else; a disconnected peer sends
      nothing.
    - The client resets and reconnects.
    - With `saveHost` set, the host reuses its id.
  - `NetworkScenarios` (`network_scenarios.dfy`) runs the service through
    whole sessions.
- `Styles` (`styles.dfy`) models the style store
  (src/app/store/style/style.store.ts).
  - The data: the `StyleValue` tag, the four-section `STTStyle` record and
    the template constants.
  - The rehydration that merges the template under the persisted current
    style and under every saved template.
- `StyleEditing` (`style_editing.dfy`) models `StyleService`
  (src/app/store/style/style.service.ts), composed with the network model.
  - Edits set field values in place and fail as a whole on a missing field.
  - Every successful edit ends with one send of the new style.
  - A received `style` message replaces the current style and sends
    nothing.
  - A joining client is sent the current style.

Some behaviour in the code may look like an oversight, and the model keeps it
as written:

- an error on the client's data connection only logs, and does not reset;
- events from peers and connections already torn down are not ignored;
- the service's own code never removes a closed connection from the
  peer's connection map, and a close does not change the host's status
  `Connected` (PeerJS's own removal of closed connections is not part of
  this model; see "Left out");
- `Stop` leaves `peerInstance` and `connInstance` set and does not cancel a
  pending reconnect.

## Model

| member | source | states |
|---|---|---|
| `PeerNetwork.ChooseHostId` | src/app/store/network/network.service.ts:92 | with `saveHost` and a non-empty stored id the stored id is reused, otherwise the fresh `uuid()`; the id is never the empty stored id |
| `PeerNetwork.PeerOptionsFor` | src/app/store/network/network.service.ts:55-60 | options are given iff the mode is localhost, and then they are host `localhost`, path `ws`, not secure, port 3030 |
| `PeerNetwork.ModeFor` | src/app/store/network/network.service.ts:64 | the stored mode is localhost iff `isLocal`, network otherwise |
| `PeerNetwork.DestroyAt` | src/app/store/network/network.service.ts:38 | destroying the current peer marks it destroyed, disconnected and closed, keeps its connection map, and leaves every other peer of the arena as it was; without a current peer nothing changes |
| `PeerNetwork.CloseAt` | src/app/store/network/network.service.ts:36 | closing the client connection marks it closed and not open, and leaves every other connection of the arena as it was; without a client connection nothing changes |
| `PeerNetwork.WithConnection` | src/app/store/network/network.service.ts:29-30 | a new connection is appended under its remote id; other ids keep their lists |
| `PeerNetwork.Repeat` | src/app/store/network/network.service.ts:73 | an event reaches each registered listener once: n listeners give n emissions of the same value |
| `PeerNetwork.AllConnsRemove` | src/app/store/network/network.service.ts:29-31 | the set of fan-out targets does not depend on the order in which remote ids are visited |
| `PeerNetwork.AllConnsBelow` | src/app/store/network/network.service.ts:29-31 | when every listed connection indexes the arena, so does every fan-out target |
| `PeerNetwork.NetworkService.FanOutTargets` | src/app/store/network/network.service.ts:29-31 | every connection a send would reach is an object of the connection arena |
| `PeerNetwork.AllConnsMembership` | src/app/store/network/network.service.ts:29-31 | a connection is a fan-out target iff some remote id lists it |
| `PeerNetwork.AllConnsWithConnection` | src/app/store/network/network.service.ts:29-31 | listing one more connection adds exactly that connection to the targets |
| `PeerNetwork.FanOutOrder` | src/app/store/network/network.service.ts:29-31 | the nested loops visit every listed connection exactly as often as it is listed |
| `PeerNetwork.NoTargetsNoSends` | src/app/store/network/network.service.ts:27-28 | a send with no targets adds no delivery |
| `PeerNetwork.NetworkService.constructor` | src/app/store/network/network.service.ts:16-23 | a new service has no peer, no connection, no pending reconnect and has emitted nothing |
| `PeerNetwork.NetworkService.GetPeerId` | src/app/store/network/network.service.ts:22 | the current peer's id, and none iff there is no current peer |
| `PeerNetwork.NetworkService.UpdateNetworkStatus` | src/app/store/network/network.service.ts:24 | only the status changes, and one store update is recorded |
| `PeerNetwork.NetworkService.SendMessage` | src/app/store/network/network.service.ts:26-32 | the message goes exactly to the fan-out targets (none when the peer is disconnected or absent), and no state changes |
| `PeerNetwork.NetworkService.ResetClient` | src/app/store/network/network.service.ts:34-44 | status `Disconnected`, the client connection closed and forgotten, the peer destroyed and forgotten, one reconnect to the same host scheduled |
| `PeerNetwork.NetworkService.Stop` | src/app/store/network/network.service.ts:46-49 | status `Disconnected`; the current peer is destroyed only if not destroyed yet; nothing else changes |
| `PeerNetwork.NetworkService.StartPeer` | src/app/store/network/network.service.ts:51-61 | a new peer with the given id and the options the stored mode selects; nothing else changes |
| `PeerNetwork.NetworkService.SetClientNetworkMode` | src/app/store/network/network.service.ts:63-65 | only the stored mode changes, to `ModeFor(isLocal)` |
| `PeerNetwork.NetworkService.InitClient` | src/app/store/network/network.service.ts:67-86 | status `Connecting` and a new current peer under the fresh id, carrying the client's listeners for this host; the old peer and connection are left alone |
| `PeerNetwork.NetworkService.StartHost` | src/app/store/network/network.service.ts:88-99 | status `Connecting` and a new current peer under `ChooseHostId`, its open/error events pending on the start promise |
| `PeerNetwork.NetworkService.SwitchSaveHost` | src/app/store/network/network.service.ts:111-113 | only `saveHost` changes, to its negation |
| `PeerNetwork.NetworkService.ConnectToHost` | src/app/store/network/network.service.ts:71-80 | the current peer (if any) gains one reliable outbound connection to the host, which becomes the client connection |
| `PeerNetwork.NetworkService.CompleteHostStart` | src/app/store/network/network.service.ts:100-108 | status `Connected`, the current peer's id stored as host id, one "connection" listener added, the start recorded as successful |
| `PeerNetwork.NetworkService.FailHostStart` | src/app/store/network/network.service.ts:101-104 | status `Disconnected`, the start recorded as failed, nothing else changes |
| `PeerNetwork.NetworkService.OnPeerOpen` | src/app/store/network/network.service.ts:70-81 | a client peer connects from the current peer to its host; a host peer whose start is pending completes the start; any other peer changes nothing but its open flag |
| `PeerNetwork.NetworkService.OnPeerError` | src/app/store/network/network.service.ts:83-85 | a client peer resets the client; a host peer whose start is pending fails the start; otherwise nothing changes |
| `PeerNetwork.NetworkService.OnPeerDisconnected` | src/app/store/network/network.service.ts:82 | only the peer's disconnected flag changes; no reset |
| `PeerNetwork.NetworkService.OnPeerConnection` | src/app/store/network/network.service.ts:106-108 | the new connection is listed under its remote id and carries one "open" listener per registered "connection" listener |
| `PeerNetwork.NetworkService.OnConnOpen` | src/app/store/network/network.service.ts:72-75 | on the client connection: a data listener on the current connection and status `Connected`; on a host connection: one client-connected emission per listener |
| `PeerNetwork.NetworkService.OnConnClose` | src/app/store/network/network.service.ts:76 | closing the client connection resets the client for its host; any other connection is only marked closed |
| `PeerNetwork.NetworkService.OnConnError` | src/app/store/network/network.service.ts:77-80 | nothing changes and nothing is scheduled |
| `PeerNetwork.NetworkService.OnConnData` | src/app/store/network/network.service.ts:73 | the data is emitted on `messages$` once per data listener; no state changes |
| `PeerNetwork.NetworkService.OnTimerFire` | src/app/store/network/network.service.ts:40-43 | the earliest pending reconnect runs `InitClient` for the host it captured |
| `NetworkScenarios.ClientReconnects` | src/app/store/network/network.service.ts:67-86 | a client is `Connecting` until its connection opens, then `Connected` and forwarding data (data arriving before the open is not forwarded, data after it is); on close it is `Disconnected` with one reconnect scheduled, which builds a new client peer for the same host |
| `NetworkScenarios.ClientIgnoresConnErrorAndDisconnect` | src/app/store/network/network.service.ts:77-82 | a connection error and a peer disconnect leave a connected client connected, with no reset scheduled |
| `NetworkScenarios.HostRestart` | src/app/store/network/network.service.ts:88-105 | a started host stores its id; after `Stop` and a new start the id is reused iff `saveHost` is set and the stored id is non-empty |
| `NetworkScenarios.HostStartFails` | src/app/store/network/network.service.ts:95-104 | a peer error before open records exactly one failed start, with its reason, even after the peer opens late; status stays `Disconnected` and the stored host id unchanged |
| `NetworkScenarios.HostWithTwoClients` | src/app/store/network/network.service.ts:106-108 | after two inbound connections, from distinct or equal remote ids, the host peer lists both, each carrying one "open" listener |
| `NetworkScenarios.HostKeepsClosedConnections` | src/app/store/network/network.service.ts:26-32 | after two clients join and one connection closes, the host is still `Connected`; since the service's own code removes nothing from the peer's map, a message sent then is delivered to exactly the two connections, the closed one included |
| `NetworkScenarios.StopTwice` | src/app/store/network/network.service.ts:46-49 | a second `Stop` only re-sets the status |
| `NetworkScenarios.SwitchSaveHostTwice` | src/app/store/network/network.service.ts:111-113 | toggling `saveHost` twice restores the state |
| `NetworkScenarios.NoSendWhenDisconnected` | src/app/store/network/network.service.ts:27-28 | after the peer reports disconnected, a send reaches no connection |
| `Styles.TemplateBoxShape` | src/app/store/style/style.store.ts:57-63 | the box defaults have exactly the declared box fields, each with its declared tag |
| `Styles.TemplateTextShape` | src/app/store/style/style.store.ts:64-69 | the text defaults have exactly the declared text fields, each with its declared tag |
| `Styles.TemplateShadowShape` | src/app/store/style/style.store.ts:70-77 | the text-shadow defaults have exactly the declared fields x, y, b, color, each with its declared tag |
| `Styles.TemplateAvatarShape` | src/app/store/style/style.store.ts:78-84 | the avatar defaults have exactly the declared avatar fields, each with its declared tag |
| `Styles.TemplateHasDeclaredShape` | src/app/store/style/style.store.ts:18-85 | every section of `STYLE_TEMPLATE` has exactly the fields the `STTStyle` interface declares, each with its declared tag |
| `Styles.TemplateBoxNumbersAreDecimal` | src/app/store/style/style.store.ts:57-63 | the box `pixels` defaults are decimal integer strings |
| `Styles.TemplateTextNumbersAreDecimal` | src/app/store/style/style.store.ts:64-69 | the text `pixels` defaults are decimal integer strings |
| `Styles.TemplateShadowNumbersAreDecimal` | src/app/store/style/style.store.ts:70-77 | the shadow `pixels` defaults are decimal integer strings |
| `Styles.TemplateAvatarNumbersAreDecimal` | src/app/store/style/style.store.ts:78-84 | the avatar `pixels` and `ms` defaults are decimal integer strings |
| `Styles.TemplateNumbersAreDecimal` | src/app/store/style/style.store.ts:56-85 | every `pixels` and `ms` value of the template is a non-empty string of decimal digits |
| `Styles.MergeSection` | src/app/store/style/style.store.ts:99 | the merged section has the fields of both; a persisted field keeps its value, a missing one takes the default |
| `Styles.MergeGroups` | src/app/store/style/style.store.ts:99 | groups on both sides are merged field by field; a group on one side only is taken as it is |
| `Styles.MergeStyle` | src/app/store/style/style.store.ts:99-100 | every field of the defaults and of the persisted style is in the merge, in all four sections; a persisted value wins, a missing one takes the default; composite groups on both sides are merged field by field |
| `Styles.Rehydrate` | src/app/store/style/style.store.ts:98-101 | rehydration merges the current style under the template and each saved template, in order and none dropped, under the template |
| `Styles.MergeSectionFills` | src/app/store/style/style.store.ts:99 | merging over defaults of the declared shape yields every declared field, and keeps the declared tags when the persisted fields carry them |
| `Styles.MergeFillsDeclaredFields` | src/app/store/style/style.store.ts:99-100 | a persisted style with the declared tags, merged over defaults of the declared shape, has every declared field with its declared tag |
| `Styles.MergeUnderTemplate` | src/app/store/style/style.store.ts:99-100 | a persisted style with the declared tags, merged under `STYLE_TEMPLATE`, has every declared field with its declared tag |
| `Styles.MergeSectionIdempotent` | src/app/store/style/style.store.ts:99 | merging a merged section again under the same defaults changes nothing |
| `Styles.MergeGroupsIdempotent` | src/app/store/style/style.store.ts:99 | merging merged composite groups again under the same defaults changes nothing |
| `Styles.MergeIdempotent` | src/app/store/style/style.store.ts:99-100 | merging a merged style again under the same defaults changes nothing |
| `Styles.MergeWithSelf` | src/app/store/style/style.store.ts:99 | a style merged over itself is unchanged |
| `Styles.RehydrateIdempotent` | src/app/store/style/style.store.ts:97-101 | rehydrating an already rehydrated state changes nothing |
| `Styles.InitialStateRehydrated` | src/app/store/style/style.store.ts:87-101 | rehydrating the initial state gives the initial state |
| `Styles.StyleStore.constructor` | src/app/store/style/style.store.ts:95-96 | the store starts with `STYLE_TEMPLATE` as current style and no saved templates |
| `Styles.StyleStore.Update` | src/app/store/style/style.store.ts:98 | an update installs the given state |
| `Styles.StyleStore.OnPersistStateInit` | src/app/store/style/style.store.ts:97-102 | the state becomes `Rehydrate` of the loaded state: the current style and each saved template, in order, merged under the template |
| `StyleEditing.SetValues` | src/app/store/style/style.service.ts:26-27 | fails iff some listed field is missing; otherwise the listed values are set, and every field, every tag and every unlisted value is kept |
| `StyleEditing.AssignValues` | src/app/store/style/style.service.ts:26-27 | the field-by-field loop computes exactly `SetValues`, whatever order it visits the keys in |
| `StyleEditing.SetGroupValues` | src/app/store/style/style.service.ts:34-36 | no listed values leave the groups unchanged even for a missing group; otherwise a missing group or field fails, and only the named group changes |
| `StyleEditing.EditBox` | src/app/store/style/style.service.ts:24-28 | succeeds iff every listed key is a box field; only the box section changes |
| `StyleEditing.EditText` | src/app/store/style/style.service.ts:43-49 | succeeds iff every listed key is a text field; only the text section changes |
| `StyleEditing.EditComposite` | src/app/store/style/style.service.ts:32-38 | succeeds iff nothing is listed or the group exists and has every listed field; only that group changes |
| `StyleEditing.SetValuesIdempotent` | src/app/store/style/style.service.ts:26-27 | applying a successful edit again changes nothing |
| `StyleEditing.EditBoxIdempotent` | src/app/store/style/style.service.ts:24-28 | repeating a successful box edit gives the same style |
| `StyleEditing.EditTextIdempotent` | src/app/store/style/style.service.ts:43-49 | repeating a successful text edit gives the same style |
| `StyleEditing.EditCompositeIdempotent` | src/app/store/style/style.service.ts:32-38 | repeating a successful composite edit gives the same style |
| `StyleEditing.SetValuesCompose` | src/app/store/style/style.service.ts:26-27 | two successive edits equal one edit with the union of their values, the later winning |
| `StyleEditing.SetValuesKeepsTags` | src/app/store/style/style.service.ts:26-27 | an edit keeps the section's field set and every field's tag |
| `StyleEditing.EditsKeepDeclaredShape` | src/app/store/style/style.service.ts:24-49 | a successful box or text edit of a style with every declared field and tag keeps it so |
| `StyleEditing.CompositeEditKeepsDeclaredShape` | src/app/store/style/style.service.ts:32-38 | a successful composite edit of a style with every declared field and tag keeps it so |
| `StyleEditing.StyleService.constructor` | src/app/store/style/style.service.ts:7-12 | the service is wired to the given style store and network service |
| `StyleEditing.StyleService.SendUpdatedStyle` | src/app/store/style/style.service.ts:14-16 | one `style` message carrying the current style goes to exactly the fan-out targets; the style store and network state are untouched |
| `StyleEditing.StyleService.UpdateStyle` | src/app/store/style/style.service.ts:18-22 | the current style is replaced wholesale; the saved templates are kept |
| `StyleEditing.StyleService.OnMessage` | src/app/store/style/style.service.ts:10 | a `style` message replaces the current style, any other message changes nothing, and nothing is sent |
| `StyleEditing.StyleService.OnClientConnected` | src/app/store/style/style.service.ts:11 | a joining client causes one send of the unchanged current style |
| `StyleEditing.StyleService.UpdateBoxStyle` | src/app/store/style/style.service.ts:24-30 | on success the box section is edited, templates kept, and exactly one send of the new style follows; on a missing field nothing changes and nothing is sent |
| `StyleEditing.StyleService.UpdateTextStyle` | src/app/store/style/style.service.ts:43-51 | as `UpdateBoxStyle`, on the text section |
| `StyleEditing.StyleService.UpdateTextComposite` | src/app/store/style/style.service.ts:32-40 | as `UpdateBoxStyle`, on one composite group; an empty edit succeeds and still sends |
| `StyleEditing.EditReachesClient` | src/app/store/style/style.service.ts:10-30 | the edit succeeds iff `EditBox` does on the host's old style; after success the client holds exactly that edited style, the host holds the same, every delivery carries it, and the client's templates are untouched; after failure nothing is sent and the client is unchanged |

## Left out

- PeerJS itself: signalling, the wire, and when events arrive are not modelled. Events are methods that the environment may call in any order on any peer or connection ever created. `destroy()` is modelled as closing and disconnecting the peer, and `connect()` always returns a connection.
- PeerJS's own bookkeeping of `peer.connections` is not modelled. In PeerJS, `DataConnection.close()`, which also runs when the remote side closes, removes the connection from its peer's map, and `destroy()` closes and clears every connection of the peer. Here only the service's code changes the map: a closed connection stays listed and is still a send target (`HostKeepsClosedConnections`), and `DestroyAt` keeps the destroyed peer's map.
- `uuid()` is not modelled: each fresh id is a parameter (`freshId`, `generated`).
- `setTimeout(…, 4000)` is a queue of pending reconnects, `pendingReconnects`. Elapsed time and the 4000 ms delay are not modelled; `OnTimerFire` runs the earliest one.
- rxjs subjects: emissions on `messages$` and `onClientConnected$` are recorded in the ghost log. Delivery to subscribers is the environment calling `StyleService.OnMessage` and `StyleService.OnClientConnected`; synchronous re-entry into the emitter is not modelled.
- `StartHost` is `async`, so it is split in three: `StartHost` runs up to the `await`, and `CompleteHostStart` or `FailHostStart` is the continuation. The rethrown `Error` is recorded as `Failed(reason)`, not raised.
- `console.log` output is not modelled.
- The Akita store is a field. Its persistence storage, `NetworkQuery`, and the moment `selectPersistStateInit` fires are not modelled; `OnPersistStateInit` is called by the environment.
- immer's `produce`: an update is applied to values, and a throw inside it leaves the state as it was. Freezing and structural sharing are not modelled.
- Styles.MergeSection: deepmerge also recurses into each `{type, value}` object and into arrays, which this model does not do. A persisted field here is taken whole, so a persisted `StyleValue` missing its `type` or `value` would not have it filled from the template.
- StyleEditing.StyleService.UpdateBoxStyle: numbers passed as values are modelled as their strings, and JavaScript's number-to-string coercion is not modelled.
- The order of `for…in`, and keys inherited through the prototype chain, are not modelled: an edit's effect does not depend on key order.
- A thrown `TypeError` from an edit is not raised: it is `ok == false` with no state change. A message's untyped `data` is typed as `STTStyle` in `StyleService`, so a malformed style payload is not modelled.
