// The fixed text of the cloud-config user data that awsx's auto-scaling
// launch configurations generate (nodejs/awsx/autoscaling/autoscaling.ts and
// nodejs/awsx/autoscaling/launchConfiguration.ts carry the same text).
module UserDataText {

  /** The fixed opening of the generated cloud-config, up to the boot commands. */
  const UserDataHeader: string :=
    "#cloud-config\n"
    + "        repo_upgrade_exclude:\n"
    + "            - kernel*\n"
    + "        packages:\n"
    + "            - aws-cfn-bootstrap\n"
    + "            - aws-cli\n"
    + "            - nfs-utils\n"
    + "        mounts:\n"
    + "            - ['/dev/xvdb', 'none', 'swap', 'sw', '0', '0']\n"
    + "        bootcmd:\n"
    + "            - mkswap /dev/xvdb\n"
    + "            - swapon /dev/xvdb\n"
    + "            - echo ECS_ENGINE_AUTH_TYPE=docker >> /etc/ecs/ecs.config\n"

  /** The start of the run commands, after which the extra run lines go. */
  const RuncmdHeader: string :=
    "        runcmd:\n"
    + "            # Set and use variables in the same command, since it's not obvious if\n"
    + "            # different commands will run in different shells.\n"
    + "            - |\n"
    + "                # Knock one letter off of availability zone to get region.\n"
    + "                AWS_AVAILABILITY_ZONE=$(curl -s 169.254.169.254/2016-09-02/meta-data/placement/availability-zone)\n"
    + "                AWS_REGION=$(echo $AWS_AVAILABILITY_ZONE | sed 's/.$//')\n"
    + "\n"

  /**
   * The closing commands: block the metadata endpoint from containers and
   * signal the stack. A backslash before a newline inside a template
   * literal continues the line, so the `cfn-signal` call is one line.
   */
  function UserDataTrailer(stackName: string): string
  {
    "\n"
    + "                # Disable container access to EC2 metadata instance\n"
    + "                # See http://docs.aws.amazon.com/AmazonECS/latest/developerguide/instance_IAM_role.html\n"
    + "                iptables --insert FORWARD 1 --in-interface docker+ --destination 169.254.169.254/32 --jump DROP\n"
    + "                service iptables save\n"
    + "\n"
    + "                /opt/aws/bin/cfn-signal "
    + "                    --region \"${AWS_REGION}\" "
    + "                    --stack \"" + stackName + "\" "
    + "                    --resource Instances\n"
    + "        "
  }

  /**
   * The variable parts of the generated cloud-config: the rendered extra
   * boot lines, the rendered extra run lines, and the stack to signal.
   */
  datatype CloudConfig = CloudConfig(bootcmd: string, runcmd: string, stackName: string)

  /** The text: header, extra boot lines, run header, extra run lines, trailer. */
  function CloudConfigText(config: CloudConfig): string
  {
    UserDataHeader + config.bootcmd + RuncmdHeader + config.runcmd + UserDataTrailer(config.stackName)
  }
}
