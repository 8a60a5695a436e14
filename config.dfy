/** The defaults of the topic demo (dummy/src/config/index.ts). */
module Config {
  const Url: string := "amqp://localhost"
  const ExchangeName: string := "logs_exchange"
  const ExchangeType: string := "topic"
  const ErrorKey: string := "logs.error"
  const InfoKey: string := "logs.info"
  const WarningKey: string := "logs.warning"
}
