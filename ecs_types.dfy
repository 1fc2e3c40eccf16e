// Values shared by the ECS modules of awsx and aws-infra: port mappings,
// environment entries and log configurations of container definitions.
module EcsTypes {
  import opened Wrappers

  /** An ECS port mapping; `hostPort` may be left to ECS. */
  datatype PortMapping = PortMapping(containerPort: int, hostPort: Option<int>)

  /** An environment entry of a container. */
  datatype KeyValuePair = KeyValuePair(name: string, value: string)

  /** A container's log configuration: the driver and its options. */
  datatype LogConfiguration = LogConfiguration(logDriver: string, options: map<string, string>)

  /** The awslogs configuration a task's log group gives a container. */
  function AwsLogs(logGroupId: string, region: string, containerName: string): (r: LogConfiguration)
    ensures r.logDriver == "awslogs" && r.options.Keys == {"awslogs-group", "awslogs-region", "awslogs-stream-prefix"}
    ensures r.options["awslogs-group"] == logGroupId && r.options["awslogs-region"] == region
    ensures r.options["awslogs-stream-prefix"] == containerName
  {
    LogConfiguration("awslogs", map["awslogs-group" := logGroupId, "awslogs-region" := region,
                                    "awslogs-stream-prefix" := containerName])
  }
}
