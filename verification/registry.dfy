/**
 * The registry of agent implementations: agent number 1 is the business intelligence agent,
 * agent number 31 the system architecture agent, and `createAgent` builds a new object of the
 * registered class or answers `null`.
 */
module Registry {
  import opened Wrappers
  import opened Agents
  import SA = SystemArchitecture

  /** `agentImplementations[agentNumber]`: the registered class, if any. */
  function Implementation(agentNumber: int): (k: Option<Kind>)
    ensures k.Some? ==> NumberOf(k.value) == agentNumber
  {
    if agentNumber == NumberOf(BusinessIntelligenceAgent) then Some(BusinessIntelligenceAgent)
    else if agentNumber == NumberOf(SystemArchitectureAgent) then Some(SystemArchitectureAgent)
    else None
  }

  /** The table holds the two implemented agents and nothing else. */
  lemma ImplementationTable(agentNumber: int)
    ensures Implementation(agentNumber) == Some(BusinessIntelligenceAgent) <==> agentNumber == 1
    ensures Implementation(agentNumber) == Some(SystemArchitectureAgent) <==> agentNumber == 31
    ensures Implementation(agentNumber).None? <==> agentNumber != 1 && agentNumber != 31
  {
  }

  /** Every implemented class is found again under its own agent number. */
  lemma ImplementationOfNumber(k: Kind)
    ensures Implementation(NumberOf(k)) == Some(k)
  {
  }

  /**
   * `createAgent(agentNumber)`: `null` for a number without an implementation; otherwise a new,
   * uninitialised agent of the registered class, whose agent number is the requested one.
   */
  method CreateAgent(agentNumber: int, now: int) returns (a: Agent?)
    ensures a == null <==> Implementation(agentNumber).None?
    ensures a != null ==> fresh(a) && a.Valid() && Some(a.kind) == Implementation(agentNumber)
    ensures a != null ==> a.agentNumber == agentNumber && a.startTime == now && !a.isInitialized && a.events == []
    ensures a != null ==> a.memory == map[] && a.monitors == 0 && a.connections == [] && a.messageLog == []
    ensures a != null ==> a.metrics == SA.InitialMetrics
  {
    var k := Implementation(agentNumber);
    if k.None? {
      return null;
    }
    a := new Agent(k.value, now);
  }
}
