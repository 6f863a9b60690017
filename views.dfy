/**
 * The Block Kit views the bot renders, and the block and action identifiers its
 * interaction handler dispatches on.
 */
module Views {
  import opened Results
  import opened Slack

  const MainActionsBlockID := "main-actions"
  const ModalTopicSelectBlockID := "modal-topic-select"

  const ActionToggleText := "action-toggle-text"
  const ActionOpenModal := "action-open-modal"
  const ActionModalTopicSelect := "action-modal-topic-select"

  const ModalCallbackID := "modal-callback"

  /** The texts and button values of the two variants of the home tab's toggled text. */
  const Version1Text := "Version 1 of toggled text!"
  const Version2Text := "Version 2 of toggled text!"
  const Version1Value := "version-1"
  const Version2Value := "version-2"

  /** The home tab view `publishHomeView` sends for the given toggled-text version. */
  function HomeTabViewFor(toggleTextVersion: int): (v: HomeTabView)
    ensures v.actionsBlockID == MainActionsBlockID
    ensures v.buttons == [Button(ActionToggleText, ToggleButtonValue(v)), Button(ActionOpenModal, "open")]
    ensures toggleTextVersion == 1 ==> v.toggledText == Version1Text && ToggleButtonValue(v) == Version1Value
    ensures toggleTextVersion != 1 ==> v.toggledText == Version2Text && ToggleButtonValue(v) == Version2Value
  {
    var (toggledText, toggleButtonValue) :=
      if toggleTextVersion == 1 then (Version1Text, Version1Value) else (Version2Text, Version2Value);
    HomeTabView(MainActionsBlockID, [Button(ActionToggleText, toggleButtonValue), Button(ActionOpenModal, "open")], toggledText)
  }

  /** The value carried by the view's toggle button ("" if it has none). */
  function ToggleButtonValue(v: HomeTabView): string {
    if |v.buttons| > 0 then v.buttons[0].value else ""
  }

  /** The options of the modal's topic select, in the order they are offered. */
  function TopicOptions(): (opts: seq<SelectOption>)
    ensures |opts| == 3
    ensures forall k :: 0 <= k < 3 ==> opts[k].value == "option-" + [('1' as int + k) as char]
  {
    [SelectOption("Option 1", "option-1"), SelectOption("Option 2", "option-2"), SelectOption("Option 3", "option-3")]
  }

  /** The select element of the modal's only input block. */
  function TopicSelect(v: ModalView): SelectElement
    requires |v.blocks| > 0 && v.blocks[0].InputBlock?
  {
    v.blocks[0].element
  }

  /**
   * The modal for a chosen topic: always the topic select, with the chosen option
   * pre-filled and a description block after it when the topic is one of the options.
   */
  function NewModalView(topic: string): (v: ModalView)
    ensures v.callbackID == ModalCallbackID
    ensures 1 <= |v.blocks| <= 2 && v.blocks[0].InputBlock?
    ensures v.blocks[0].blockID == ModalTopicSelectBlockID
    ensures TopicSelect(v).actionID == ActionModalTopicSelect && TopicSelect(v).options == TopicOptions()
    ensures forall k :: 0 <= k < 3 ==> (TopicSelect(v).initialOption == Some(TopicOptions()[k]) <==> topic == TopicOptions()[k].value)
    ensures TopicSelect(v).initialOption.None? <==> |v.blocks| == 1
    ensures TopicSelect(v).initialOption.Some? ==>
              v.blocks[1] == SectionBlock("You have selected " + TopicSelect(v).initialOption.value.text + "!")
  {
    var options := TopicOptions();
    assert "You have selected Option 1!" == "You have selected " + options[0].text + "!";
    assert "You have selected Option 2!" == "You have selected " + options[1].text + "!";
    assert "You have selected Option 3!" == "You have selected " + options[2].text + "!";
    var (initial, descriptionText) :=
      if topic == "option-1" then (Some(options[0]), "You have selected Option 1!")
      else if topic == "option-2" then (Some(options[1]), "You have selected Option 2!")
      else if topic == "option-3" then (Some(options[2]), "You have selected Option 3!")
      else (None, "");
    var input := InputBlock(ModalTopicSelectBlockID, SelectElement(ActionModalTopicSelect, options, initial));
    ModalView(ModalCallbackID, [input] + if descriptionText != "" then [SectionBlock(descriptionText)] else [])
  }

  /** Choosing any offered option pre-fills exactly that option. */
  lemma SelectingAnOptionPrefillsIt(o: SelectOption)
    requires o in TopicOptions()
    ensures TopicSelect(NewModalView(o.value)).initialOption == Some(o)
    ensures |NewModalView(o.value).blocks| == 2
  {
    var k :| 0 <= k < 3 && TopicOptions()[k] == o;
  }

  /** A topic that is not an option's value gives the bare modal: no pre-filled option, one block. */
  lemma UnknownTopicGivesBareModal(topic: string)
    requires forall o :: o in TopicOptions() ==> o.value != topic
    ensures TopicSelect(NewModalView(topic)).initialOption.None?
    ensures NewModalView(topic) == NewModalView("")
  {
    assert TopicOptions()[0] in TopicOptions();
    assert TopicOptions()[1] in TopicOptions();
    assert TopicOptions()[2] in TopicOptions();
  }

  /** Re-rendering the modal from its own pre-filled option gives the same modal. */
  lemma RerenderIsStable(topic: string)
    ensures var v := NewModalView(topic);
            TopicSelect(v).initialOption.Some? ==> NewModalView(TopicSelect(v).initialOption.value.value) == v
  {
  }
}
