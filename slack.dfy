/**
 * The parts of the Slack Web API the bot talks to.  Every API call the bot makes is
 * recorded as a `SlackCall` value, in the order it is made; what Slack answers is
 * a parameter of the handler that makes the call.  Views keep only the texts,
 * values, identifiers and block structure the bot's logic decides.
 */
module Slack {
  import opened Results

  /** A button element of an actions block. */
  datatype Button = Button(actionID: string, value: string)

  /** The home tab view: the actions block with its buttons, and the toggled text under the divider. */
  datatype HomeTabView = HomeTabView(actionsBlockID: string, buttons: seq<Button>, toggledText: string)

  /** An option of a static select menu. */
  datatype SelectOption = SelectOption(text: string, value: string)

  /** A static select menu; `initialOption` is the option shown as already chosen. */
  datatype SelectElement = SelectElement(actionID: string, options: seq<SelectOption>, initialOption: Option<SelectOption>)

  /** The blocks a modal is built from. */
  datatype ModalBlock =
    | InputBlock(blockID: string, element: SelectElement)
    | SectionBlock(text: string)

  /** A modal view request. */
  datatype ModalView = ModalView(callbackID: string, blocks: seq<ModalBlock>)

  /** The token pair returned by the OAuth v2 token refresh endpoint. */
  datatype OAuthTokens = OAuthTokens(accessToken: string, refreshToken: string)

  /** The fields of the OAuth v2 code exchange response the bot keeps. */
  datatype OAuthV2Response = OAuthV2Response(teamID: string, appID: string, accessToken: string, refreshToken: string)

  /** One call to the Slack Web API, with the arguments that the bot supplies. */
  datatype SlackCall =
    | GetTeamInfo(token: string)
    | RefreshOAuthV2Token(clientID: string, clientSecret: string, refreshToken: string)
    | GetOAuthV2Response(clientID: string, clientSecret: string, code: string)
    | PublishView(token: string, userID: string, homeView: HomeTabView)
    | SendMessage(token: string, channel: string, text: string, threadTS: Option<string>)
    | OpenView(token: string, triggerID: string, modal: ModalView)
    | UpdateView(token: string, viewID: string, modal: ModalView)
  {
    /** A call that shows something to users, as opposed to one about credentials. */
    predicate IsOutbound() {
      PublishView? || SendMessage? || OpenView? || UpdateView?
    }
  }
}
