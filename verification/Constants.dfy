/** The numeric constants of src/constants.ts that the modelled logic depends on. */
module Constants {

  const MAX_NODE_ID := 255

  const LAST_PORT := 65535
  const WEB_EXPOSED_PORT_START := 15000
  const PATRONI_PORT_START := 5432
  const PATRONI_PORT_END := PATRONI_PORT_START + 2048
  const PATRONI_POSTGRES_PORT_START := PATRONI_PORT_END + 1
  const PATRONI_REST_PORT_START := 8008

  const LEADER_ELECTION_INTERVAL_MS := 300000
  const LEADER_ELECTION_HARD_COOLDOWN_MS := 15000
  const REBOOT_REQUIRED_LOAD_VALUE: real := 1000000.0
  const COORDINATOR_REBOOT_MAX_LOAD: real := 0.2
  const COORDINATOR_REBOOT_HOUR := 3
}
