/** Messages, intents, topics and the static routing tables of the broker. */
module Messages {

  type AgentId = string

  datatype Intent =
    | CFP | PROPOSE | ACCEPT_PROPOSAL | REJECT_PROPOSAL
    | INFORM | REQUEST | ALERT | ACKNOWLEDGE | CONFIRM
    | DEMAND_CHANGE | STOCK_ALERT | PLAN_UPDATE
    | TOOL_CALL | TOOL_RESULT | ACCEPT_JOB | REJECT_JOB | STATUS_REPORT

  datatype Topic =
    | EQUIPMENT | QUALITY | SUPPLY | DEMAND | INVENTORY | PLANNING
    | BROADCAST | ALERTS | CNP

  datatype Message = Message(id: string, sender: AgentId, receiver: AgentId, intent: Intent)

  const ALL := "ALL"

  function TopicOf(intent: Intent): Topic {
    match intent
    case CFP | PROPOSE | ACCEPT_PROPOSAL | REJECT_PROPOSAL | ACCEPT_JOB | REJECT_JOB => CNP
    case ALERT => ALERTS
    case DEMAND_CHANGE => DEMAND
    case STOCK_ALERT => INVENTORY
    case PLAN_UPDATE => PLANNING
    case _ => BROADCAST
  }

  function DefaultTopics(agent: AgentId): set<Topic> {
    {BROADCAST, ALERTS, CNP} +
    if agent == "EA" then {EQUIPMENT}
    else if agent == "QA" then {QUALITY}
    else if agent == "SA" then {SUPPLY}
    else if agent == "DA" then {DEMAND}
    else if agent == "IA" then {INVENTORY}
    else if agent == "PA" then {PLANNING}
    else {}
  }
}
