/**
 * `CommandRegistrar`: registers the global slash commands once, then the
 * admin commands in every admin guild the bot is in, and sets its
 * `commandsRegistered` flag when that is done. Discord answers each request
 * later through a callback; the global request's answer is a parameter of
 * the call that sends it, and every per-guild answer is an explicit step
 * (`AdminCallback`). Each admin batch keeps its own counter, as each call
 * of `registerAdminCommands` captures a fresh `registeredCount`.
 */
module Registration {
  import opened Util
  import opened Discord
  import opened Admin
  import opened Commands

  /** One `registerAdminCommands` call: how many guilds it sent to and how many have answered. */
  datatype Batch = Batch(total: nat, answered: nat)

  class CommandRegistrar {
    const adminService: AdminService
    /** `commandManager.getAdminCommands()`. */
    const adminCommands: seq<Command>
    var commandsRegistered: bool
    /** Global `updateCommands` requests sent. */
    var globalRequests: nat
    /** The guilds admin commands were sent to, once per request. */
    var adminRequests: multiset<string>
    var batches: seq<Batch>

    /** Every batch is non-empty, no batch has more answers than requests, and a completed batch has set the flag. */
    ghost predicate Valid()
      reads this
    {
      forall b :: 0 <= b < |batches| ==>
        && 0 < batches[b].total
        && batches[b].answered <= batches[b].total
        && (batches[b].answered == batches[b].total ==> commandsRegistered)
    }

    constructor (adminService: AdminService)
      ensures Valid() && this.adminService == adminService && adminCommands == GetAdminCommands()
      ensures !commandsRegistered && globalRequests == 0 && adminRequests == multiset{} && batches == []
    {
      this.adminService := adminService;
      adminCommands := GetAdminCommands();
      commandsRegistered := false;
      globalRequests := 0;
      adminRequests := multiset{};
      batches := [];
    }

    /** The guilds of the gateway that are admin guilds (`jda.guilds.filter { isAdminGuild(it.id) }`). */
    function AdminTargets(jda: Gateway): (targets: set<string>)
      ensures forall g :: g in targets ==> g in jda.guilds
      ensures adminService.adminGuildIds == {} ==> targets == {}
    {
      set g | g in jda.guilds && adminService.IsAdminGuild(g)
    }

    /**
     * `registerCommands`: nothing once the flag is set. Otherwise the global
     * commands are sent; on failure the flag stays false so that a later call
     * retries; on success the admin commands follow, or, when there are none,
     * the flag is set.
     */
    method RegisterCommands(jda: Gateway, globalOk: bool)
      requires Valid()
      modifies this
      ensures Valid() && (old(commandsRegistered) ==> commandsRegistered)
      ensures old(commandsRegistered) ==>
        && globalRequests == old(globalRequests) && adminRequests == old(adminRequests) && batches == old(batches)
      ensures !old(commandsRegistered) ==> globalRequests == old(globalRequests) + 1
      ensures !old(commandsRegistered) && !globalOk ==>
        !commandsRegistered && adminRequests == old(adminRequests) && batches == old(batches)
      ensures !old(commandsRegistered) && globalOk && adminCommands == [] ==>
        commandsRegistered && adminRequests == old(adminRequests) && batches == old(batches)
      ensures !old(commandsRegistered) && globalOk && adminCommands != [] ==>
        AdminBatchSent(jda, old(commandsRegistered), old(adminRequests), old(batches))
    {
      if commandsRegistered {
        return;
      }
      globalRequests := globalRequests + 1;
      if globalOk {
        if adminCommands != [] {
          RegisterAdminCommands(jda);
        } else {
          commandsRegistered := true;
        }
      }
    }

    /**
     * The effect of `registerAdminCommands`: with no admin guild configured,
     * or none of them among the bot's guilds, the flag is set and nothing is
     * sent; otherwise each target guild gets one request and a new batch
     * waits for as many answers.
     */
    ghost predicate AdminBatchSent(jda: Gateway, oldFlag: bool, oldRequests: multiset<string>, oldBatches: seq<Batch>)
      reads this
    {
      var targets := AdminTargets(jda);
      if adminService.adminGuildIds == {} || targets == {} then
        commandsRegistered && adminRequests == oldRequests && batches == oldBatches
      else
        && commandsRegistered == oldFlag
        && adminRequests == oldRequests + multiset(targets)
        && batches == oldBatches + [Batch(|targets|, 0)]
    }

    method RegisterAdminCommands(jda: Gateway)
      requires Valid()
      modifies this
      ensures Valid() && globalRequests == old(globalRequests)
      ensures AdminBatchSent(jda, old(commandsRegistered), old(adminRequests), old(batches))
    {
      if adminService.GetAdminGuildIds() == {} {
        commandsRegistered := true;
        return;
      }
      var targets := AdminTargets(jda);
      if targets == {} {
        commandsRegistered := true;
        return;
      }
      adminRequests := adminRequests + multiset(targets);
      batches := batches + [Batch(|targets|, 0)];
    }

    /**
     * One guild of batch `b` answers, successfully or not: the batch's
     * counter goes up, and the flag is set when it reaches the batch's size.
     */
    method AdminCallback(b: nat)
      requires Valid() && b < |batches| && batches[b].answered < batches[b].total
      modifies this
      ensures Valid()
      ensures batches == old(batches)[b := Batch(old(batches[b]).total, old(batches[b]).answered + 1)]
      ensures commandsRegistered <==> old(commandsRegistered) || batches[b].answered == batches[b].total
      ensures globalRequests == old(globalRequests) && adminRequests == old(adminRequests)
    {
      var batch := batches[b];
      batches := batches[b := Batch(batch.total, batch.answered + 1)];
      if batch.answered + 1 == batch.total {
        commandsRegistered := true;
      }
    }

    /** `registerAdminCommandsForGuild`: a guild the bot joins gets the admin commands exactly when it is an admin guild and there are admin commands. */
    method RegisterAdminCommandsForGuild(g: string) returns (sent: bool)
      requires Valid()
      modifies this
      ensures Valid()
      ensures sent <==> adminCommands != [] && adminService.IsAdminGuild(g)
      ensures adminRequests == old(adminRequests) + (if sent then multiset{g} else multiset{})
      ensures commandsRegistered == old(commandsRegistered) && globalRequests == old(globalRequests) && batches == old(batches)
    {
      if adminCommands == [] {
        return false;
      }
      if adminService.IsAdminGuild(g) {
        adminRequests := adminRequests + multiset{g};
        return true;
      }
      return false;
    }
  }

  /** With the command table's admin list, a successful global registration always goes on to the admin guilds. */
  lemma AdminCommandsPresent()
    ensures GetAdminCommands() != []
  {
    assert Status in GetAdminCommands();
  }
}
