# Home Assistant MQTT device types, entity-to-wire core

This project models, in Dafny, how four device types of the Arduino Home
Assistant library turn their settings and state into MQTT traffic:

- the alarm control panel (`HAAlarmControlPanel`);
- the binary sensor (`HABinarySensor`);
- the button (`HAButton`);
- the inline part of the light (`HALight`).

It covers five things:

- **Discovery documents.** `buildSerializer` is modelled as an ordered list
  of entries (key, value kind) appended step by step. It builds the document
  once, and does nothing when a document already exists or the entity has
  no unique id.
- **The connect sequence.** `onMqttConnected` is an ordered log of abstract
  actions: publish config, publish availability, subscribe to the command
  topic, publish data.
- **Debounced state publishes.** `setPanelState`/`setState` skip the
  publish when the value is unchanged and not forced. They record the new
  value only after a successful publish.
- **Command dispatch.** `onMqttMessage` takes the topic comparison as a
  parameter. The panel forwards the raw payload; the button ignores it.
- **Value encodings.**
  - panel state to state token, where the unknown state falls through to
    `pending`;
  - binary state to `ON`/`OFF`;
  - the supported-features array, built from a bitmask in a fixed token
    order that is not the bit order;
  - `HALight::RGBColor`, whose equality ignores `isSet`.

Modules:

- `Wire` (wire.dfy): the shared vocabulary. It has the integer widths, the
  nullable option, property keys and values, and the transport actions. It
  also holds the generic builder `Collect`, which drives each entity's
  document through a key-at-step function and a value-per-key function,
  with its entry, presence and order lemmas.
- `AlarmControlPanel` (alarm_control_panel.dfy), `BinarySensor`
  (binary_sensor.dfy), `Button` (button.dfy) and `Light` (light.dfy): one
  module per device type. Each entity whose fields the source updates is a
  `class`.

Each entity builds its document in two ways, and a lemma proves them equal:

- a flat function that follows the source line by line (`PanelDocument`,
  `SensorDocument`, `ButtonDocument`);
- a `Collect` over the builder's key sequence (`…DocumentByKeys`).

The `BuildSerializer` methods are proved against the flat functions. The
properties are proved about the `Collect` form: which entries appear and
when, the order, the length bound, and the last entries.

Transport results are parameters:

- `publishOk` is what the unseen `publishOnDataTopic` returns;
- `compareDataTopics` is `HASerializer::compareDataTopics`.

The panel, the binary sensor and the button append every request they make
of the transport to a `sent` log of `Action`s. The light's publish code is not
part of this model. Its only log is `published`, which holds the state values
handed to its state publish.

Where the declared capacity and the true number of entries disagree, the
model keeps the true count and the declared one as separate constants. The
disagreement is listed under "## Findings".

Further modelling decisions:

- The panel's constructor initializer list omits `_payloadArmCustomBypass`
  (HAAlarmControlPanel.cpp:24-35). So `Panel`'s constructor promises
  nothing about that field's initial value.
- The light's mireds limits are documented twice, and the two disagree.
  The setter comments (HALight.h:255-256, 264-265) say they default to
  153/500. The field comments (HALight.h:521-525) say they are not set by
  default. The model follows the field comments: `None`.
- `HALight.cpp` is not part of this model. The `setState` doc comment
  (HALight.h:93-102) promises only three things: an unchanged value is not
  published, `force` skips the comparison, and a published call returns
  whether the publish succeeded. `Light.SetState` keeps those three. It
  also assumes two rules about the absent implementation, by analogy with
  HAAlarmControlPanel.cpp:47-59 and HABinarySensor.cpp:19-31:
  - a skipped call returns true;
  - the state is recorded only after a successful publish.
- The panel's `setEnableByDefault` and `setEntityCategory`
  (HAAlarmControlPanel.h:102-112) store values that `buildSerializer`
  (HAAlarmControlPanel.cpp:61-156) never reads.
  `PanelDocumentOptionalEntries` proves that neither key ever appears in
  the panel's document.
- `getPanelState` is documented as retrieving the last known state
  (HAAlarmControlPanel.h:70-74), but it returns `bool`. The model keeps
  that conversion: the result only says whether the state is known.

## Model

| member | source | states |
|---|---|---|
| AlarmControlPanel.FeatureBit | src/device-types/HAAlarmControlPanel.h:24-32 | each feature flag is a single non-zero bit below 64 |
| AlarmControlPanel.FeatureBitsDistinct | src/device-types/HAAlarmControlPanel.h:24-32 | two flags share a bit exactly when they are the same feature |
| AlarmControlPanel.HasFeature | src/device-types/HAAlarmControlPanel.cpp:112-134 | the `_features & X` test of each guarded `add`: the mask has feature X's bit. `MaskHasExactly` states which features a combined mask has |
| AlarmControlPanel.MaskBelow64 | src/device-types/HAAlarmControlPanel.h:24-32 | any OR-combination of the flags is below 64 |
| AlarmControlPanel.MaskHasExactly | src/device-types/HAAlarmControlPanel.h:24-32 | a combined mask enables a feature exactly when that feature was combined into it |
| AlarmControlPanel.Ordinal | src/device-types/HAAlarmControlPanel.h:35-47 | the state values are at most 10, and 0 exactly for `UnknownState` |
| AlarmControlPanel.OrdinalsConsecutive | src/device-types/HAAlarmControlPanel.h:35-47 | the values are exactly the consecutive integers 0..10, one state each, and map back to their state |
| AlarmControlPanel.StateOfOrdinal | src/device-types/HAAlarmControlPanel.h:35-47 | a reference inverse of the enum's integer values, with no counterpart in the source. It names the state with each value 0..10 and none above; `OrdinalsConsecutive` relates the two |
| AlarmControlPanel.PanelStateToken | src/device-types/HAAlarmControlPanel.cpp:193-207 | the `pending` token is sent exactly for `UnknownState` and `Pending` |
| AlarmControlPanel.StateTokenRoundTrip | src/device-types/HAAlarmControlPanel.cpp:193-207 | every known state reads back from its token, and every token is sent for some state. Two states share a token only when both are unknown or pending |
| AlarmControlPanel.TokenIfEnabled | src/device-types/HAAlarmControlPanel.cpp:114-136 | one `add` call adds the feature's token or nothing |
| AlarmControlPanel.TokenOf | src/device-types/HAAlarmControlPanel.cpp:112-134 | the token each feature's `add` passes (`HAArmAway` … `HATrigger`). `FeatureTokensMembership` and `FeatureTokensOrdered` state which tokens the array holds and in what order |
| AlarmControlPanel.TokenState | src/device-types/HAAlarmControlPanel.cpp:193-207 | a reference inverse of the token switch, with no counterpart in the source. It names the known state each token stands for; `StateTokenRoundTrip` relates the two |
| AlarmControlPanel.TokensFor | src/device-types/HAAlarmControlPanel.cpp:114-136 | the `add` calls for a list of features add at most one token each |
| AlarmControlPanel.FeatureTokens | src/device-types/HAAlarmControlPanel.cpp:112-136 | the array's contents after clearing and the six conditional `add` calls. `FeatureTokensMembership`, `FeatureTokensOrdered` and `FeatureTokensCount` state its properties |
| AlarmControlPanel.FeatureTokensSteps | src/device-types/HAAlarmControlPanel.cpp:114-136 | the array after each of the six `add` steps is the previous array plus that feature's token when its bit is set |
| AlarmControlPanel.TokensForMembership | src/device-types/HAAlarmControlPanel.cpp:114-136 | a feature's token is present exactly when the feature was visited and its bit is set |
| AlarmControlPanel.FeatureTokensMembership | src/device-types/HAAlarmControlPanel.cpp:114-136 | each token is in the array exactly when its bit is set in the mask |
| AlarmControlPanel.TokensForOrdered | src/device-types/HAAlarmControlPanel.cpp:114-136 | tokens appear in the visiting order, each at most once |
| AlarmControlPanel.FeatureTokensOrdered | src/device-types/HAAlarmControlPanel.cpp:114-136 | the array lists arm_away, arm_home, arm_night, arm_vacation, arm_custom_bypass, trigger in that order, without repeats |
| AlarmControlPanel.PopCount | src/device-types/HAAlarmControlPanel.cpp:111-143 | a reference count of set bits, with no counterpart in the source. The number of set bits among the lowest `width` bits is at most `width`; `FeatureTokensCount` relates it to the array's length |
| AlarmControlPanel.PopCountOfFeatures | src/device-types/HAAlarmControlPanel.h:24-32 | the set bits among the six lowest are exactly the enabled features |
| AlarmControlPanel.FeatureTokensCount | src/device-types/HAAlarmControlPanel.cpp:111-143 | the array's length equals the number of set bits among the six feature bits |
| AlarmControlPanel.FeatureTokensOfMask | src/device-types/HAAlarmControlPanel.cpp:114-136 | the array built for a combination of features holds exactly their tokens |
| AlarmControlPanel.TokenOrderIsNotBitOrder | src/device-types/HAAlarmControlPanel.cpp:114-120 | arm_home has the lower bit, yet arm_away is added first |
| AlarmControlPanel.FeaturesArrayOverflowsAsWritten | src/device-types/HAAlarmControlPanel.cpp:37 | with every feature enabled, more tokens are added than the capacity of 4 the constructor gives the array |
| AlarmControlPanel.TokensForAllEnabled | src/device-types/HAAlarmControlPanel.cpp:114-136 | with every bit set, every `add` call adds its token |
| AlarmControlPanel.FeatureTokensFitCapacity | src/device-types/HAAlarmControlPanel.cpp:111-143 | the array never holds more than 6 tokens, one per feature |
| AlarmControlPanel.PanelKeyOrder | src/device-types/HAAlarmControlPanel.cpp:67-155 | the 21 builder steps visit 21 different keys, and a key is visited exactly when its rank is below 21 |
| AlarmControlPanel.PanelDocument | src/device-types/HAAlarmControlPanel.cpp:67-155 | the entries `buildSerializer` adds, in source order and under the source's guards. `Panel.BuildSerializer` is proved against it, and `PanelDocumentCollects` ties it to the key-by-key form |
| AlarmControlPanel.PanelValue | src/device-types/HAAlarmControlPanel.cpp:67-155 | the value the builder sets under each key, or none where its guard skips the key: retain only when true, the code-required flags only when false, the code only when set, the features only when not the default. `PanelDocumentEntry`, `PanelDocumentHas` and the per-key lemmas state the document's contents through it |
| AlarmControlPanel.PanelDocumentByKeys | src/device-types/HAAlarmControlPanel.cpp:67-155 | the document built key by key has at most 21 entries |
| AlarmControlPanel.PanelDocumentCollects | src/device-types/HAAlarmControlPanel.cpp:67-155 | the line-by-line document equals the key-by-key one |
| AlarmControlPanel.PanelDocumentFits | src/device-types/HAAlarmControlPanel.cpp:67 | the document never exceeds the 21 properties the serializer is created for |
| AlarmControlPanel.PanelDocumentEntry | src/device-types/HAAlarmControlPanel.cpp:67-155 | an entry is present exactly when its key is visited and the builder sets that value under it |
| AlarmControlPanel.PanelDocumentHas | src/device-types/HAAlarmControlPanel.cpp:67-155 | a key is present exactly when it is visited and not skipped |
| AlarmControlPanel.PanelDocumentRetain | src/device-types/HAAlarmControlPanel.cpp:73-79 | the retain entry, set to true, appears exactly when the panel retains |
| AlarmControlPanel.PanelDocumentArmCodeRequired | src/device-types/HAAlarmControlPanel.cpp:81-87 | the arm code-required entry, set to false, appears exactly when the flag is false |
| AlarmControlPanel.PanelDocumentDisarmCodeRequired | src/device-types/HAAlarmControlPanel.cpp:89-95 | the disarm code-required entry, set to false, appears exactly when the flag is false |
| AlarmControlPanel.PanelDocumentTriggerCodeRequired | src/device-types/HAAlarmControlPanel.cpp:97-103 | the trigger code-required entry, set to false, appears exactly when the flag is false |
| AlarmControlPanel.PanelDocumentOptionalEntries | src/device-types/HAAlarmControlPanel.cpp:105-143 | the code appears exactly when one is set, and the features array exactly when the mask is not the default. Enabled-by-default and entity category never appear |
| AlarmControlPanel.PanelDocumentOrder | src/device-types/HAAlarmControlPanel.cpp:67-155 | entries follow the builder's fixed key order, each key at most once |
| AlarmControlPanel.PanelDocumentEnds | src/device-types/HAAlarmControlPanel.cpp:154-155 | the document ends with the device block, then the availability block |
| AlarmControlPanel.Panel.constructor | src/device-types/HAAlarmControlPanel.cpp:8-38 | the initial settings of the initializer list: code-required flags true, enabled by default, everything else null or false, state unknown (name and object id null, an assumed initial value of the base class), empty features array. The custom-bypass payload is left unspecified |
| AlarmControlPanel.Panel.SetPanelState | src/device-types/HAAlarmControlPanel.cpp:47-59 | unchanged and not forced: returns true, publishes nothing, keeps the state. Otherwise: publishes the token retained, returns the publish result, and records the state only on success |
| AlarmControlPanel.Panel.GetPanelState | src/device-types/HAAlarmControlPanel.h:73-74 | the `bool` result is true exactly when the state is not `UnknownState` |
| AlarmControlPanel.Panel.PublishPanelState | src/device-types/HAAlarmControlPanel.cpp:191-214 | appends one retained publish of the state's token on the state topic, and returns the transport's answer |
| AlarmControlPanel.Panel.BuildSerializer | src/device-types/HAAlarmControlPanel.cpp:61-156 | no-op when a document exists or there is no unique id. Otherwise the document is the line-by-line one, and the features array is refilled exactly when the mask is not the default. Keeps the array within 6 and the document within 21 |
| AlarmControlPanel.Panel.FillSupportedFeatures | src/device-types/HAAlarmControlPanel.cpp:112-136 | after clearing and the six conditional `add`s, the array is the mask's tokens in wire order, at most 6 |
| AlarmControlPanel.Panel.OnMqttConnected | src/device-types/HAAlarmControlPanel.cpp:158-174 | nothing without a unique id; otherwise config, availability, command subscription, then a retained state publish exactly when the panel does not retain |
| AlarmControlPanel.Panel.OnMqttMessage | src/device-types/HAAlarmControlPanel.cpp:176-189 | the callback receives the payload and length unchanged exactly when the topic matches the command topic and a callback is set. Nothing else changes |
| AlarmControlPanel.Panel.HandleCommand | src/device-types/HAAlarmControlPanel.cpp:216-225 | forwards the raw bytes to the callback when one is set, and otherwise does nothing |
| AlarmControlPanel.Panel.SetIcon | src/device-types/HAAlarmControlPanel.h:82-83 | assigns only the icon |
| AlarmControlPanel.Panel.SetRetain | src/device-types/HAAlarmControlPanel.h:91-92 | assigns only the retain flag |
| AlarmControlPanel.Panel.SetEnableByDefault | src/device-types/HAAlarmControlPanel.h:102-103 | assigns only the enabled-by-default flag |
| AlarmControlPanel.Panel.SetEntityCategory | src/device-types/HAAlarmControlPanel.h:111-112 | assigns only the entity category |
| AlarmControlPanel.Panel.SetCode | src/device-types/HAAlarmControlPanel.h:121-122 | assigns only the code |
| AlarmControlPanel.Panel.SetCodeArmRequired | src/device-types/HAAlarmControlPanel.h:130-131 | assigns only the arm code-required flag |
| AlarmControlPanel.Panel.SetCodeDisarmRequired | src/device-types/HAAlarmControlPanel.h:139-140 | assigns only the disarm code-required flag |
| AlarmControlPanel.Panel.SetCodeTriggerRequired | src/device-types/HAAlarmControlPanel.h:148-149 | assigns only the trigger code-required flag |
| AlarmControlPanel.Panel.SetPayloadArmAway | src/device-types/HAAlarmControlPanel.h:158-159 | assigns only the arm-away payload |
| AlarmControlPanel.Panel.SetPayloadArmHome | src/device-types/HAAlarmControlPanel.h:167-168 | assigns only the arm-home payload |
| AlarmControlPanel.Panel.SetPayloadArmNight | src/device-types/HAAlarmControlPanel.h:176-177 | assigns only the arm-night payload |
| AlarmControlPanel.Panel.SetPayloadArmVacation | src/device-types/HAAlarmControlPanel.h:185-186 | assigns only the arm-vacation payload |
| AlarmControlPanel.Panel.SetPayloadCustomBypass | src/device-types/HAAlarmControlPanel.h:194-195 | assigns only the custom-bypass payload |
| AlarmControlPanel.Panel.SetPayloadDisarm | src/device-types/HAAlarmControlPanel.h:203-204 | assigns only the disarm payload |
| AlarmControlPanel.Panel.SetPayloadTrigger | src/device-types/HAAlarmControlPanel.h:212-213 | assigns only the trigger payload |
| AlarmControlPanel.Panel.OnCommand | src/device-types/HAAlarmControlPanel.h:220-221 | the callback is registered exactly when the pointer passed is non-null, so a null one clears it |
| AlarmControlPanel.RepeatedSetPublishesOnce | src/device-types/HAAlarmControlPanel.cpp:47-59 | setting the same state twice publishes once (never for the initial unknown state), and both calls succeed |
| AlarmControlPanel.ForcedSetAlwaysPublishes | src/device-types/HAAlarmControlPanel.cpp:47-53 | a forced set publishes every time |
| AlarmControlPanel.NullCallbackStopsForwarding | src/device-types/HAAlarmControlPanel.cpp:182-187 | after a null registration a matching command is no longer forwarded |
| AlarmControlPanel.FailedPublishIsRetried | src/device-types/HAAlarmControlPanel.cpp:53-58 | after a failed publish the same state is published again, not skipped |
| BinarySensor.OnOffTokenOf | src/device-types/HABinarySensor.cpp:93 | the payload chosen for a state, `ON` for true and `OFF` for false. `OnOffRoundTrip` states its contract |
| BinarySensor.OnOffText | src/device-types/HABinarySensor.cpp:93 | the wire text of each payload. `OnOffRoundTrip` states its contract |
| BinarySensor.StateOfText | src/device-types/HABinarySensor.cpp:93 | a reference inverse with no counterpart in the source. It reads a payload back as a state; `OnOffRoundTrip` relates the two |
| BinarySensor.OnOffRoundTrip | src/device-types/HABinarySensor.cpp:89-96 | the payload reads back as the state it was sent for, and different states send different payloads |
| BinarySensor.SensorKeyOrder | src/device-types/HABinarySensor.cpp:48-75 | the 12 builder steps visit 12 different keys, and a key is visited exactly when its rank is below 12 |
| BinarySensor.SensorDocument | src/device-types/HABinarySensor.cpp:48-75 | the entries `buildSerializer` adds, in source order and under the source's guards. `Sensor.BuildSerializer` is proved against it, and `SensorDocumentCollects` ties it to the key-by-key form |
| BinarySensor.SensorValue | src/device-types/HABinarySensor.cpp:49-75 | the value the builder sets under each key, or none where its guard skips the key: enabled-by-default only when false, expire-after only when set. `SensorDocumentEntry`, `SensorDocumentHas` and the per-key lemmas state the document's contents through it |
| BinarySensor.SensorDocumentByKeys | src/device-types/HABinarySensor.cpp:48-75 | the document built key by key has at most 12 entries |
| BinarySensor.SensorDocumentCollects | src/device-types/HABinarySensor.cpp:48-75 | the line-by-line document equals the key-by-key one |
| BinarySensor.SensorDocumentFits | src/device-types/HABinarySensor.cpp:49-75 | the document never exceeds 12 entries, the most the builder can add |
| BinarySensor.SensorDocumentOverflowsAsWritten | src/device-types/HABinarySensor.cpp:48 | a sensor with expiry set and not enabled by default has 12 entries, more than the 11 declared |
| BinarySensor.SensorDocumentEntry | src/device-types/HABinarySensor.cpp:48-75 | an entry is present exactly when its key is visited and the builder sets that value under it |
| BinarySensor.SensorDocumentHas | src/device-types/HABinarySensor.cpp:48-75 | a key is present exactly when it is visited and not skipped |
| BinarySensor.SensorDocumentEnabledByDefault | src/device-types/HABinarySensor.cpp:57-63 | the enabled-by-default entry, set to false, appears exactly when the sensor is not enabled by default |
| BinarySensor.SensorDocumentExpireAfter | src/device-types/HABinarySensor.cpp:65-71 | the expire-after entry appears exactly when the expiry is set, and carries its value |
| BinarySensor.SensorDocumentReportsOnly | src/device-types/HABinarySensor.cpp:48-75 | the document has no command topic and no retain entry |
| BinarySensor.SensorDocumentOrder | src/device-types/HABinarySensor.cpp:48-75 | entries follow the builder's fixed key order, each key at most once |
| BinarySensor.SensorDocumentEnds | src/device-types/HABinarySensor.cpp:73-75 | the document ends with device, availability, then the state topic |
| BinarySensor.Sensor.constructor | src/device-types/HABinarySensor.cpp:7-17 | classes, icon and category null, enabled by default, expiry unset, state false; name and object id null, an assumed initial value of the base class |
| BinarySensor.Sensor.SetState | src/device-types/HABinarySensor.cpp:19-31 | unchanged and not forced: returns true without publishing. Otherwise: publishes `ON`/`OFF` retained, returns the publish result, and records the state only on success |
| BinarySensor.Sensor.SetExpireAfter | src/device-types/HABinarySensor.cpp:33-40 | a positive value is set, and zero resets the expiry to unset |
| BinarySensor.Sensor.BuildSerializer | src/device-types/HABinarySensor.cpp:42-76 | no-op when a document exists or there is no unique id; otherwise the document is the line-by-line one, within 12 entries |
| BinarySensor.Sensor.OnMqttConnected | src/device-types/HABinarySensor.cpp:78-87 | nothing without a unique id; otherwise exactly config, availability, then the current state retained, with no subscription |
| BinarySensor.Sensor.PublishState | src/device-types/HABinarySensor.cpp:89-96 | appends one retained publish of `ON` for true, `OFF` for false, and returns the transport's answer |
| BinarySensor.FailedSetIsRetried | src/device-types/HABinarySensor.cpp:25-30 | after a failed publish the same state is published again |
| BinarySensor.FreshSensorConnects | src/device-types/HABinarySensor.cpp:78-87 | a fresh sensor connects with config, availability and a retained `OFF` |
| Button.ButtonKeyOrder | src/device-types/HAButton.cpp:25-53 | the 11 builder steps visit 11 different keys, and a key is visited exactly when its rank is below 11 |
| Button.ButtonDocument | src/device-types/HAButton.cpp:25-53 | the entries `buildSerializer` adds, in source order and under the source's guards. `Button.BuildSerializer` is proved against it, and `ButtonDocumentCollects` ties it to the key-by-key form |
| Button.ButtonValue | src/device-types/HAButton.cpp:26-53 | the value the builder sets under each key, or none where its guard skips the key: enabled-by-default only when false, retain only when true. `ButtonDocumentEntry`, `ButtonDocumentHas` and the per-key lemmas state the document's contents through it |
| Button.ButtonDocumentByKeys | src/device-types/HAButton.cpp:25-53 | the document built key by key has at most 11 entries |
| Button.ButtonDocumentCollects | src/device-types/HAButton.cpp:25-53 | the line-by-line document equals the key-by-key one |
| Button.ButtonDocumentFits | src/device-types/HAButton.cpp:25 | the document never exceeds the 11 properties the serializer is created for |
| Button.ButtonDocumentEntry | src/device-types/HAButton.cpp:25-53 | an entry is present exactly when its key is visited and the builder sets that value under it |
| Button.ButtonDocumentHas | src/device-types/HAButton.cpp:25-53 | a key is present exactly when it is visited and not skipped |
| Button.ButtonDocumentEnabledByDefault | src/device-types/HAButton.cpp:33-40 | the enabled-by-default entry, set to false, appears exactly when the button is not enabled by default |
| Button.ButtonDocumentRetain | src/device-types/HAButton.cpp:42-49 | the retain entry, set to true, appears exactly when the button retains |
| Button.ButtonDefaultDocument | src/device-types/HAButton.cpp:11-12 | at the default flags the document has neither optional entry, and has 9 entries |
| Button.ButtonDocumentOrder | src/device-types/HAButton.cpp:25-53 | entries follow the builder's fixed key order, each key at most once |
| Button.ButtonDocumentEnds | src/device-types/HAButton.cpp:51-53 | the document ends with device, availability, then the command topic |
| Button.Button.constructor | src/device-types/HAButton.cpp:7-17 | class and icon null, not retained, enabled by default, no category, no callback; name and object id null, an assumed initial value of the base class |
| Button.Button.BuildSerializer | src/device-types/HAButton.cpp:19-54 | no-op when a document exists or there is no unique id; otherwise the document is the line-by-line one, within 11 entries |
| Button.Button.OnMqttConnected | src/device-types/HAButton.cpp:56-65 | nothing without a unique id; otherwise exactly config, availability, then the command subscription |
| Button.Button.OnMqttMessage | src/device-types/HAButton.cpp:67-83 | the callback fires exactly once when it is registered and the topic matches, and never otherwise |
| Button.Button.SetDeviceClass | src/device-types/HAButton.h:38-39 | assigns only the device class |
| Button.Button.SetIcon | src/device-types/HAButton.h:47-48 | assigns only the icon |
| Button.Button.SetRetain | src/device-types/HAButton.h:56-57 | assigns only the retain flag |
| Button.Button.OnCommand | src/device-types/HAButton.h:66-91 | the callback is effectively registered exactly when the pointer passed is non-null, so a null one clears it |
| Button.DefaultButtonDocument | src/device-types/HAButton.cpp:11-12 | a button at its defaults builds a 9-entry document without either optional flag |
| Button.PayloadIsIgnored | src/device-types/HAButton.cpp:73-74 | two presses with different payloads have the same effect |
| Button.NullCallbackStopsPresses | src/device-types/HAButton.cpp:76-81 | after a null registration a matching message no longer presses |
| Button.NoCallbackNoPress | src/device-types/HAButton.cpp:76 | without a callback no message counts as a press |
| Light.FeatureBit | src/device-types/HALight.h:40-45 | each feature flag is a single non-zero bit below 8 |
| Light.FeatureBitsDistinct | src/device-types/HALight.h:40-45 | two flags share a bit exactly when they are the same feature |
| Light.HasFeature | src/device-types/HALight.h:40-45 | the light's mask has feature X's bit. `MaskHasExactly` states which features a combined mask has |
| Light.MaskBelow8 | src/device-types/HALight.h:86-90 | any OR-combination of the flags is below 8 |
| Light.MaskHasExactly | src/device-types/HALight.h:86-90 | a combined mask enables a feature exactly when it was combined |
| Light.RGBColor.constructor | src/device-types/HALight.h:53-54 | the default colour is (0,0,0), not set |
| Light.RGBColor.Of | src/device-types/HALight.h:56-57 | the three-channel constructor stores the channels and marks the colour set |
| Light.RGBColor.Assign | src/device-types/HALight.h:59-64 | assignment copies all four fields, `isSet` included, and leaves the colours equal |
| Light.RGBColor.Equals | src/device-types/HALight.h:66-72 | `operator==`: the three channels agree. `EqualsIgnoresIsSet` and `EqualsIsEquivalence` state its contract |
| Light.RGBColor.NotEquals | src/device-types/HALight.h:74-80 | `operator!=`: some channel differs. `NotEqualsIsNegation` states its contract |
| Light.NotEqualsIsNegation | src/device-types/HALight.h:66-80 | `!=` is exactly the negation of `==` |
| Light.EqualsIsEquivalence | src/device-types/HALight.h:66-72 | `==` is reflexive, symmetric and transitive |
| Light.EqualsIgnoresIsSet | src/device-types/HALight.h:66-72 | `==` holds exactly when the channel triples agree, whatever the flags |
| Light.DefaultEqualsBlack | src/device-types/HALight.h:53-72 | the unset default colour equals the explicitly set black, although their flags differ |
| Light.Light.constructor | src/device-types/HALight.h:500-531 | the documented defaults: not optimistic, brightness scale 255, mireds unset, state off, brightness and temperature 0, colour (0,0,0) unset |
| Light.Light.SetState | src/device-types/HALight.h:93-102 | unchanged and not forced: publishes nothing and returns true. Otherwise: publishes, returns the publish result, and records the state only on success |
| Light.Light.TurnOn | src/device-types/HALight.h:140-141 | `setState(true)` without force: nothing when already on, otherwise one publish of true |
| Light.Light.TurnOff | src/device-types/HALight.h:146-147 | `setState(false)` without force: nothing when already off, otherwise one publish of false |
| Light.Light.SetCurrentState | src/device-types/HALight.h:156-164 | the getter returns the state just set; nothing is published and no other field changes |
| Light.Light.GetCurrentState | src/device-types/HALight.h:163-164 | the last known state: `false` (the constructor ensures it) on a fresh light, and what `SetCurrentState` stored. `SetCurrentState` and `CurrentValuesRoundTrip` state this round trip |
| Light.Light.SetCurrentBrightness | src/device-types/HALight.h:173-181 | the getter returns the brightness just set; nothing is published and no other field changes |
| Light.Light.GetCurrentBrightness | src/device-types/HALight.h:180-181 | the last known brightness: `0` (the constructor ensures it) on a fresh light, and what `SetCurrentBrightness` stored. `SetCurrentBrightness` and `CurrentValuesRoundTrip` state this round trip |
| Light.Light.SetCurrentColorTemperature | src/device-types/HALight.h:190-198 | the getter returns the temperature just set; nothing is published and no other field changes |
| Light.Light.GetCurrentColorTemperature | src/device-types/HALight.h:197-198 | the last known colour temperature: `0` (the constructor ensures it) on a fresh light, and what `SetCurrentColorTemperature` stored. `SetCurrentColorTemperature` and `CurrentValuesRoundTrip` state this round trip |
| Light.Light.SetCurrentRGBColor | src/device-types/HALight.h:207-215 | the getter returns a colour with the four fields of the one set, equal to it; only the light's own colour changes |
| Light.Light.GetCurrentRGBColor | src/device-types/HALight.h:214-215 | the last known colour: `0,0,0` unset (the constructor ensures it) on a fresh light, and what `SetCurrentRGBColor` stored. `SetCurrentRGBColor` and `CurrentValuesRoundTrip` state this round trip |
| Light.Light.SetIcon | src/device-types/HALight.h:223-224 | assigns only the icon |
| Light.Light.SetRetain | src/device-types/HALight.h:232-233 | assigns only the retain flag |
| Light.Light.SetOptimistic | src/device-types/HALight.h:242-243 | assigns only the optimistic flag |
| Light.Light.SetBrightnessScale | src/device-types/HALight.h:251-252 | sets the brightness scale to the given value |
| Light.Light.SetMinMireds | src/device-types/HALight.h:260-261 | sets the minimum mireds to the given value |
| Light.Light.SetMaxMireds | src/device-types/HALight.h:269-270 | sets the maximum mireds to the given value |
| Light.CurrentValuesRoundTrip | src/device-types/HALight.h:156-215 | setting every current value before connecting publishes nothing, and each getter returns what was set |
| Light.TurnOnIsDebounced | src/device-types/HALight.h:140-147 | turning a fresh light off publishes nothing; turning it on twice publishes once |
| Wire.Step | src/device-types/HAAlarmControlPanel.cpp:68-155 | one builder step adds at most one entry |
| Wire.Collect | src/device-types/HAAlarmControlPanel.cpp:67-155 | after `n` steps the document has at most `n` entries |
| Wire.CollectEntries | src/device-types/HAAlarmControlPanel.cpp:67-155 | an entry is in a step-by-step document exactly when its key was visited and the builder set that value under it |
| Wire.CollectHas | src/device-types/HAAlarmControlPanel.cpp:67-155 | a key is present exactly when it was visited and not skipped |
| Wire.CollectOrdered | src/device-types/HAAlarmControlPanel.cpp:67-155 | when keys are ranked by visiting step, the document lists them in that order, each at most once |

## Left out

- The transport and the base class are not part of this model. That
  covers MQTT, `publishConfig`, `publishAvailability`, `subscribeTopic`,
  `publishOnDataTopic` and `HASerializer::compareDataTopics`. Their results
  are parameters (`publishOk`, `compareDataTopics`). The panel, the sensor
  and the button record their requests in a `sent` log. The light records
  only the state values it hands to its state publish, in `published`. The
  connect sequences do not look at whether the publishes they trigger
  succeed.
- JSON rendering inside `HASerializer`/`HASerializerArray` is not part of
  this model. A document is the ordered list of `set`/`topic` calls. A string
  property that is null is still recorded as an entry, because the
  renderer's skipping of null values is not visible. Boolean and number
  properties are recorded by value, not by pointer.
- `HANumeric` (expire-after, brightness scale, mireds) is an opaque
  optional integer. Its fixed-point formatting is not modelled.
- Callbacks are booleans saying whether one is registered, and `OnCommand`
  takes whether the pointer passed is non-null. The button counts the
  invocations of the user's callback, and the panel records the
  `(payload, length)` pairs it forwards.
  - The std::function and function-pointer registration variants are not
    distinguished.
  - On ESP platforms the button's function-pointer overload (HAButton.h:66-72)
    wraps even a null pointer in a lambda that checks it before calling. The
    stored callback is then non-null, but the user's callback still never
    runs. So the model's "not registered" is the observable outcome on both
    platforms.
- `HABinarySensor.h` is not part of this model. The name, object id,
  classes, icon, category and enabled-by-default flag that the sensor's
  builder reads are plain fields without setters. The same holds for the
  name, object id, enabled-by-default flag and category that every
  entity inherits from the base class. Their initial null name and object
  id, which the panel's, the sensor's and the button's constructors ensure,
  are assumed: the base-class constructor is not part of this model.
- `HALight.cpp` is not part of this model. The light's `buildSerializer`,
  `onMqttConnected`, `onMqttMessage`, its publish and handle methods,
  `setBrightness`, `setColorTemperature`, `setRGBColor` and
  `RGBColor::fromBuffer` are left out. `Light.SetState` keeps what its doc
  comment promises, plus the two assumed rules named under the next line.
- Light.Light.SetState: the true result of a skipped call, and recording the
  state only after a successful publish, are assumed rules about the absent
  `HALight.cpp`, not promises of its header.
- Light.Light.constructor: does not promise an initial icon or retain flag,
  because only `HALight.cpp` fixes those.
- `HASelect.h` and `HAScene.h` hold declarations only and are not modelled.
- Allocating and freeing the serializers (`new`/`delete`, the destructor)
  is replaced by an optional document and a sequence-valued features array.
  The builder computes the document locally and stores it at the end; no
  caller observes the document while it is half built.
- The panel's command forwarding does no code validation, and the model
  adds none.
- The panel constructor's initializer list names callback members
  (`_armAwayCallback` and others) that its header does not declare. They
  have no observable effect and are not modelled.

## Findings

| source | as written | input that shows it | evidently intended | confidence | as-written member | corrected member |
|---|---|---|---|---|---|---|
| src/device-types/HAAlarmControlPanel.cpp:37 | the supported-features array is created with capacity 4, yet the builder can `add` six tokens (lines 114-136) | a panel constructed with all six feature flags | a capacity of 6, one slot per feature | not executed | AlarmControlPanel.FeaturesArrayOverflowsAsWritten | AlarmControlPanel.FeatureTokensFitCapacity |
| src/device-types/HABinarySensor.cpp:48 | the serializer is created for 11 properties, yet the builder can set 12 (lines 49-75) | a sensor with an expiry set and enabled-by-default false | 12 properties | not executed | BinarySensor.SensorDocumentOverflowsAsWritten | BinarySensor.SensorDocumentFits |
