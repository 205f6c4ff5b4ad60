/** The criteria file that is shipped, set by set, against the patterns that are compiled in. */
module ShippedConfig {
  import opened Criteria
  import opened AdminConfig

  /** The patterns of the file under the name of the criterion. */
  function ShippedPatterns(c: Criterion): seq<string> {
    match c
    case Irreversibility =>
      [
        "permanent delete", "overwrite backup", "overwrite backups", "delete backup", "delete backups",
        "rm -rf /", "rm -rf --no-preserve-root /", "sudo rm -rf /", "rm -rf /var/backups", "rm -rf /home",
        "rm -rf /tmp", "rm -rf /usr", "rm -rf /etc", "dd if=/dev/zero", "dd if = /dev/zero", "wipefs", "mkfs"]
    case SystemSecurity =>
      [
        "sudoers", "/etc/sudoers", "iptables", "ufw", "firewall",
        "chmod\\s+\\d+\\s+.*(/etc|/usr|/bin|/sbin|/opt)", "chown\\s+.*(root|sudo)", "useradd|usermod|passwd",
        "systemctl\\s+(stop|disable|restart)"]
    case CredentialsSecrets =>
      [
        "password", "passwd", "ssh\\s+-i", "id_rsa", "api[_ -]?token", "authorization: bearer", "secret",
        "private[_ -]?key", "aws secret access key"]
    case DataExfiltration =>
      [
        "curl\\s+.*(\\|\\s*sh|--upload|--data|--form)", "scp\\s+", "rsync\\s+.*(ssh|remote)", "git\\s+push",
        "mail\\s+-s", "sendmail", "email.*(send|attach)", "upload.*(file|archive|logs)"]
    case Financial =>
      [
        "transfer.*money", "bank", "wire transfer", "paypal", "stripe", "invoice", "charge", "payment",
        "currency"]
    case ThirdPartyImpact =>
      [
        "post\\s+.*(tweet|message|announcement|comment)", "twitter", "x\\.com", "discord", "slack", "linkedin",
        "facebook", "reddit", "telegram"]
  }

  lemma FirstSetsAreDefaults(c: Criterion)
    requires c == Irreversibility || c == SystemSecurity || c == CredentialsSecrets
    ensures ShippedPatterns(c) == FieldOf(DefaultPatterns(), c)
  {
  }

  lemma LastSetsAreDefaults(c: Criterion)
    requires c == DataExfiltration || c == Financial || c == ThirdPartyImpact
    ensures ShippedPatterns(c) == FieldOf(DefaultPatterns(), c)
  {
  }

  function ShippedSets(): seq<CriteriaPatternSet> {
    SetsOf(ShippedPatterns)
  }

  lemma CategoryConverts(patterns: Criterion -> seq<string>, otherwise: CriteriaConfig, c: Criterion)
    ensures FieldOf(CriteriaOf(SetsOf(patterns), otherwise), c) == patterns(c)
  {
    SetDecides(patterns, c, FieldOf(otherwise, c));
  }

  /** Converting the shipped file gives exactly the patterns that are compiled in, whatever the fallback. */
  lemma ShippedFileIsDefault(otherwise: CriteriaConfig, c: Criterion)
    ensures FieldOf(CriteriaOf(ShippedSets(), otherwise), c) == FieldOf(DefaultPatterns(), c)
  {
    CategoryConverts(ShippedPatterns, otherwise, c);
    if c == Irreversibility || c == SystemSecurity || c == CredentialsSecrets {
      FirstSetsAreDefaults(c);
    } else {
      LastSetsAreDefaults(c);
    }
  }
}
